/**
 The canonical form of a request: the JSON text of a string-to-string dictionary with sorted keys and
 no white space (sections 4 and 7 of RFC 8259), everything outside printable ASCII escaped.
 */
module CanonicalJson {
  import opened Schema

  // ------------------------------------------------------------- characters

  function HexDigit(d: nat): char
    requires d < 16
  {
    if d < 10 then ('0' as int + d) as char else ('a' as int + d - 10) as char
  }

  function HexValue(c: char): nat
  {
    if '0' <= c <= '9' then c as int - '0' as int
    else if 'a' <= c <= 'f' then c as int - 'a' as int + 10
    else 0
  }

  /** The escape of one UTF-16 code unit. */
  function Unit(n: nat): string
    requires n < 0x10000
  {
    ['\\', 'u', HexDigit(n / 16 / 16 / 16), HexDigit(n / 16 / 16 % 16), HexDigit(n / 16 % 16), HexDigit(n % 16)]
  }

  function UnitValue(s: string): nat
    requires |s| >= 6
  {
    HexValue(s[2]) * 4096 + HexValue(s[3]) * 256 + HexValue(s[4]) * 16 + HexValue(s[5])
  }

  /** The letter of the short escapes. */
  function ShortEscape(c: char): Option<char>
  {
    if c == '\"' then Some('\"')
    else if c == '\\' then Some('\\')
    else if c == '\n' then Some('n')
    else if c == '\r' then Some('r')
    else if c == '\t' then Some('t')
    else if c as int == 8 then Some('b')
    else if c as int == 12 then Some('f')
    else None
  }

  function Escape(c: char): (r: string)
    ensures r != "" && r[0] != '\"'
  {
    if ShortEscape(c).Some? then ['\\', ShortEscape(c).value]
    else if ' ' <= c <= '~' then [c]
    else if c as int < 0x10000 then Unit(c as int)
    else Unit(0xD800 + (c as int - 0x10000) / 1024) + Unit(0xDC00 + (c as int - 0x10000) % 1024)
  }

  function ShortValue(letter: char): char
  {
    match letter
    case 'n' => '\n'
    case 'r' => '\r'
    case 't' => '\t'
    case 'b' => 8 as char
    case 'f' => 12 as char
    case other => other
  }

  /** The character a JSON string text starts with, and how many characters of text it took. */
  function ReadChar(s: string): (char, nat)
    requires s != ""
  {
    if s[0] != '\\' then (s[0], 1)
    else if |s| < 2 then ('?', 1)
    else if s[1] != 'u' then (ShortValue(s[1]), 2)
    else if |s| < 6 then ('?', |s|)
    else
      var n := UnitValue(s);
      if n < 0xD800 then (n as char, 6)
      else if 0xE000 <= n < 0x10000 then (n as char, 6)
      else if |s| < 12 || n >= 0x10000 then ('?', 6)
      else
        var m := UnitValue(s[6..]);
        if n < 0xDC00 && 0xDC00 <= m < 0xE000 then ((0x10000 + (n - 0xD800) * 1024 + (m - 0xDC00)) as char, 12)
        else ('?', 6)
  }

  lemma HexReadsBack(d: nat)
    requires d < 16
    ensures HexValue(HexDigit(d)) == d
  {
  }

  lemma UnitReadsBack(n: nat, rest: string)
    requires n < 0x10000
    ensures UnitValue(Unit(n) + rest) == n
  {
    HexReadsBack(n / 16 / 16 / 16);
    HexReadsBack(n / 16 / 16 % 16);
    HexReadsBack(n / 16 % 16);
    HexReadsBack(n % 16);
  }

  lemma PairReadsBack(high: nat, low: nat, rest: string)
    requires 0xD800 <= high < 0xDC00 && 0xDC00 <= low < 0xE000
    ensures ReadChar(Unit(high) + Unit(low) + rest) == ((0x10000 + (high - 0xD800) * 1024 + (low - 0xDC00)) as char, 12)
  {
    var s := Unit(high) + Unit(low) + rest;
    UnitReadsBack(high, Unit(low) + rest);
    UnitReadsBack(low, rest);
    assert s == Unit(high) + (Unit(low) + rest);
    assert s[6..] == Unit(low) + rest;
  }

  /** Reading undoes escaping, whatever follows: no escape is the beginning of another. */
  lemma CharReadsBack(c: char, rest: string)
    ensures ReadChar(Escape(c) + rest) == (c, |Escape(c)|)
  {
    var n := c as int;
    if ShortEscape(c).Some? {
      assert (Escape(c) + rest)[0] == '\\' && (Escape(c) + rest)[1] == ShortEscape(c).value;
    } else if !(' ' <= c <= '~') {
      if n < 0x10000 {
        UnitReadsBack(n, rest);
      } else {
        PairReadsBack(0xD800 + (n - 0x10000) / 1024, 0xDC00 + (n - 0x10000) % 1024, rest);
      }
    }
  }

  // ---------------------------------------------------------------- strings

  function Escaped(t: string): string
  {
    if t == "" then "" else Escape(t[0]) + Escaped(t[1..])
  }

  function Quoted(t: string): string
  {
    "\"" + Escaped(t) + "\""
  }

  lemma Regroup(a: string, b: string, c: string)
    ensures a + b + c == a + (b + c)
  {
  }

  lemma RegroupFour(a: string, b: string, c: string, d: string)
    ensures a + b + c + d == a + (b + (c + d))
  {
    Regroup(a + b, c, d);
    Regroup(a, b, c + d);
  }

  lemma SameRest(a: string, b: string, x: string, y: string)
    requires a + x == b + y && |a| == |b|
    ensures a == b && x == y
  {
    assert (a + x)[..|a|] == a && (b + y)[..|a|] == b;
    assert (a + x)[|a|..] == x && (b + y)[|a|..] == y;
  }

  /** A string and its closing quote, with what follows. */
  function Closed(t: string, x: string): (r: string)
    ensures r != ""
  {
    if t == "" then "\"" + x else Escape(t[0]) + Closed(t[1..], x)
  }

  lemma {:induction false} ClosedIsEscaped(t: string, x: string)
    ensures Closed(t, x) == Escaped(t) + "\"" + x
  {
    if t == "" {
      assert Escaped(t) + "\"" == "\"";
    } else {
      ClosedIsEscaped(t[1..], x);
      Regroup(Escape(t[0]), Escaped(t[1..]), "\"");
      Regroup(Escape(t[0]), Escaped(t[1..]) + "\"", x);
    }
  }

  lemma ClosesAtOnce(t: string, x: string)
    ensures Closed(t, x)[0] == '\"' <==> t == ""
  {
  }

  /** Two equal texts close the same string and go on alike. */
  lemma {:induction false} ClosedIsPrefixFree(t: string, u: string, x: string, y: string)
    requires Closed(t, x) == Closed(u, y)
    ensures t == u && x == y
    decreases |t|
  {
    ClosesAtOnce(t, x);
    ClosesAtOnce(u, y);
    if t == "" {
      SameRest("\"", "\"", x, y);
    } else {
      CharReadsBack(t[0], Closed(t[1..], x));
      CharReadsBack(u[0], Closed(u[1..], y));
      SameRest(Escape(t[0]), Escape(u[0]), Closed(t[1..], x), Closed(u[1..], y));
      ClosedIsPrefixFree(t[1..], u[1..], x, y);
      assert t == [t[0]] + t[1..] && u == [u[0]] + u[1..];
    }
  }

  lemma QuotedIsPrefixFree(t: string, u: string, x: string, y: string)
    requires Quoted(t) + x == Quoted(u) + y
    ensures t == u && x == y
  {
    ClosedIsEscaped(t, x);
    ClosedIsEscaped(u, y);
    RegroupFour("\"", Escaped(t), "\"", x);
    Regroup(Escaped(t), "\"", x);
    RegroupFour("\"", Escaped(u), "\"", y);
    Regroup(Escaped(u), "\"", y);
    SameRest("\"", "\"", Closed(t, x), Closed(u, y));
    ClosedIsPrefixFree(t, u, x, y);
  }

  // ---------------------------------------------------------------- objects

  type Pair = (string, string)

  function Member(p: Pair): string
  {
    Quoted(p.0) + ":" + Quoted(p.1)
  }

  /** What follows a member of an object. */
  function Tail(pairs: seq<Pair>): string
  {
    if pairs == [] then "}" else "," + Member(pairs[0]) + Tail(pairs[1..])
  }

  function Object(pairs: seq<Pair>): string
  {
    if pairs == [] then "{}" else "{" + Member(pairs[0]) + Tail(pairs[1..])
  }

  lemma MemberIsPrefixFree(p: Pair, q: Pair, x: string, y: string)
    requires Member(p) + x == Member(q) + y
    ensures p == q && x == y
  {
    RegroupFour(Quoted(p.0), ":", Quoted(p.1), x);
    RegroupFour(Quoted(q.0), ":", Quoted(q.1), y);
    QuotedIsPrefixFree(p.0, q.0, ":" + (Quoted(p.1) + x), ":" + (Quoted(q.1) + y));
    SameRest(":", ":", Quoted(p.1) + x, Quoted(q.1) + y);
    QuotedIsPrefixFree(p.1, q.1, x, y);
  }

  /** What follows the opening brace or a comma. */
  lemma {:induction false} TailIsInjective(ps: seq<Pair>, qs: seq<Pair>)
    requires Tail(ps) == Tail(qs)
    ensures ps == qs
  {
    if ps == [] || qs == [] {
      assert Tail(ps)[0] == Tail(qs)[0];
    } else {
      MoreMembers(",", ps, qs);
      TailIsInjective(ps[1..], qs[1..]);
    }
  }

  lemma MoreMembers(opening: string, ps: seq<Pair>, qs: seq<Pair>)
    requires ps != [] && qs != []
    requires opening + Member(ps[0]) + Tail(ps[1..]) == opening + Member(qs[0]) + Tail(qs[1..])
    ensures ps[0] == qs[0] && Tail(ps[1..]) == Tail(qs[1..])
  {
    var x, y := Tail(ps[1..]), Tail(qs[1..]);
    Regroup(opening, Member(ps[0]), x);
    Regroup(opening, Member(qs[0]), y);
    SameRest(opening, opening, Member(ps[0]) + x, Member(qs[0]) + y);
    MemberIsPrefixFree(ps[0], qs[0], x, y);
  }

  lemma ObjectIsInjective(ps: seq<Pair>, qs: seq<Pair>)
    requires Object(ps) == Object(qs)
    ensures ps == qs
  {
    if ps == [] || qs == [] {
      assert Object(ps)[1] == Object(qs)[1];
    } else {
      MoreMembers("{", ps, qs);
      TailIsInjective(ps[1..], qs[1..]);
    }
  }

  // ---------------------------------------------------------------- sorting

  /** The order of strings by code point. */
  predicate Before(a: string, b: string)
  {
    if a == "" then b != ""
    else b != "" && (a[0] < b[0] || (a[0] == b[0] && Before(a[1..], b[1..])))
  }

  lemma {:induction false} BeforeIsTotal(a: string, b: string)
    ensures a == b || Before(a, b) || Before(b, a)
    ensures !(Before(a, b) && Before(b, a)) && (a == b ==> !Before(a, b))
  {
    if a != "" && b != "" && a[0] == b[0] {
      BeforeIsTotal(a[1..], b[1..]);
      assert a == [a[0]] + a[1..] && b == [b[0]] + b[1..];
    }
  }

  lemma {:induction false} BeforeIsTransitive(a: string, b: string, c: string)
    requires Before(a, b) && Before(b, c)
    ensures Before(a, c)
  {
    if a != "" && a[0] == b[0] == c[0] {
      BeforeIsTransitive(a[1..], b[1..], c[1..]);
    }
  }

  /** A dictionary in insertion order: each key once. */
  ghost predicate Dictionary(pairs: seq<Pair>)
  {
    forall i, j :: 0 <= i < j < |pairs| ==> pairs[i].0 != pairs[j].0
  }

  function Inserted(p: Pair, pairs: seq<Pair>): seq<Pair>
  {
    if pairs == [] || Before(p.0, pairs[0].0) then [p] + pairs else [pairs[0]] + Inserted(p, pairs[1..])
  }

  function Sorted(pairs: seq<Pair>): seq<Pair>
  {
    if pairs == [] then [] else Inserted(pairs[0], Sorted(pairs[1..]))
  }

  ghost predicate Ascending(pairs: seq<Pair>)
  {
    forall i, j :: 0 <= i < j < |pairs| ==> Before(pairs[i].0, pairs[j].0)
  }

  ghost predicate SameMembers(ps: seq<Pair>, qs: seq<Pair>)
  {
    forall p :: p in ps <==> p in qs
  }

  lemma {:induction false} InsertedEffect(p: Pair, pairs: seq<Pair>)
    requires Ascending(pairs) && forall i :: 0 <= i < |pairs| ==> pairs[i].0 != p.0
    ensures Ascending(Inserted(p, pairs))
    ensures forall q :: q in Inserted(p, pairs) <==> q == p || q in pairs
  {
    if pairs != [] {
      BeforeIsTotal(p.0, pairs[0].0);
      if Before(p.0, pairs[0].0) {
        forall j | 1 <= j < |pairs| ensures Before(p.0, pairs[j].0) {
          BeforeIsTransitive(p.0, pairs[0].0, pairs[j].0);
        }
      } else {
        InsertedEffect(p, pairs[1..]);
        var rest := Inserted(p, pairs[1..]);
        forall j | 0 <= j < |rest| ensures Before(pairs[0].0, rest[j].0) {
          assert rest[j] in rest;
        }
      }
    }
  }

  lemma {:induction false} SortedEffect(pairs: seq<Pair>)
    requires Dictionary(pairs)
    ensures Ascending(Sorted(pairs)) && SameMembers(Sorted(pairs), pairs)
  {
    if pairs != [] {
      SortedEffect(pairs[1..]);
      var rest := Sorted(pairs[1..]);
      forall i | 0 <= i < |rest| ensures rest[i].0 != pairs[0].0 {
        assert rest[i] in pairs[1..];
      }
      InsertedEffect(pairs[0], rest);
    }
  }

  /** There is one ascending list of given members. */
  lemma {:induction false} AscendingIsUnique(ps: seq<Pair>, qs: seq<Pair>)
    requires Ascending(ps) && Ascending(qs) && SameMembers(ps, qs)
    ensures ps == qs
  {
    if ps == [] {
      if qs != [] {
        NotEmpty(qs, ps);
      }
    } else if qs == [] {
      NotEmpty(ps, qs);
    } else {
      SameFirst(ps, qs);
      forall p ensures p in ps[1..] <==> p in qs[1..] {
        FirstIsNotInRest(ps);
        FirstIsNotInRest(qs);
        assert p in ps <==> p == ps[0] || p in ps[1..];
        assert p in qs <==> p == qs[0] || p in qs[1..];
      }
      AscendingIsUnique(ps[1..], qs[1..]);
    }
  }

  lemma NotEmpty(ps: seq<Pair>, qs: seq<Pair>)
    requires SameMembers(ps, qs) && ps != []
    ensures qs != []
  {
    assert ps[0] in qs;
  }

  lemma FirstIsNotInRest(ps: seq<Pair>)
    requires Ascending(ps) && ps != []
    ensures ps[0] !in ps[1..]
  {
    BeforeIsTotal(ps[0].0, ps[0].0);
  }

  lemma SameFirst(ps: seq<Pair>, qs: seq<Pair>)
    requires Ascending(ps) && Ascending(qs) && SameMembers(ps, qs) && ps != [] && qs != []
    ensures ps[0] == qs[0]
  {
    assert ps[0] in qs && qs[0] in ps;
    BeforeIsTotal(ps[0].0, qs[0].0);
  }

  // ---------------------------------------------------------- request hashes

  function Canonical(pairs: seq<Pair>): string
  {
    Object(Sorted(pairs))
  }

  function RequestHash(digest: string -> string, pairs: seq<Pair>): string
  {
    digest(Canonical(pairs))
  }

  /**
   The canonical form depends on the members of a dictionary and not on their order, and two
   dictionaries with one canonical form have the same members: so equal hashes of different
   requests would be a collision of the digest.
   */
  lemma CanonicalIsExact(ps: seq<Pair>, qs: seq<Pair>)
    requires Dictionary(ps) && Dictionary(qs)
    ensures Canonical(ps) == Canonical(qs) <==> SameMembers(ps, qs)
  {
    SortedEffect(ps);
    SortedEffect(qs);
    if SameMembers(ps, qs) {
      AscendingIsUnique(Sorted(ps), Sorted(qs));
    }
    if Canonical(ps) == Canonical(qs) {
      ObjectIsInjective(Sorted(ps), Sorted(qs));
    }
  }

  /** The payloads of the two checkout endpoints, each in its own order. */
  function CartPayload(cart: string, address: string, instrument: string): seq<Pair>
  {
    [("cart_id", cart), ("address_id", address), ("payment_method_id", instrument)]
  }

  function OrderPayload(cart: string, address: string, instrument: string): seq<Pair>
  {
    [("cart_id", cart), ("payment_method_id", instrument), ("address_id", address)]
  }

  /** Both endpoints hash one triple alike, and different triples differ unless the digest collides. */
  lemma EndpointsAgree(digest: string -> string, cart: string, address: string, instrument: string,
                       cart': string, address': string, instrument': string)
    ensures RequestHash(digest, CartPayload(cart, address, instrument)) == RequestHash(digest, OrderPayload(cart, address, instrument))
    ensures (cart, address, instrument) != (cart', address', instrument') ==>
              Canonical(CartPayload(cart, address, instrument)) != Canonical(OrderPayload(cart', address', instrument'))
  {
    KeysDiffer();
    PayloadsMatch("cart_id", "address_id", "payment_method_id", cart, address, instrument, cart, address, instrument);
    PayloadsMatch("cart_id", "address_id", "payment_method_id", cart, address, instrument, cart', address', instrument');
    CanonicalIsExact(CartPayload(cart, address, instrument), OrderPayload(cart, address, instrument));
    CanonicalIsExact(CartPayload(cart, address, instrument), OrderPayload(cart', address', instrument'));
  }

  lemma PayloadsMatch(k: string, l: string, m: string, a: string, b: string, c: string, a': string, b': string, c': string)
    requires k != l && k != m && l != m
    ensures var ps, qs := [(k, a), (l, b), (m, c)], [(k, a'), (m, c'), (l, b')];
            && Dictionary(ps) && Dictionary(qs)
            && (SameMembers(ps, qs) <==> a == a' && b == b' && c == c')
  {
    var ps, qs := [(k, a), (l, b), (m, c)], [(k, a'), (m, c'), (l, b')];
    ThreeMembers((k, a), (l, b), (m, c));
    ThreeMembers((k, a'), (m, c'), (l, b'));
    if SameMembers(ps, qs) {
      assert (k, a) in qs && (l, b) in qs && (m, c) in qs;
    }
  }

  lemma ThreeMembers(a: Pair, b: Pair, c: Pair)
    ensures forall p :: p in [a, b, c] <==> p == a || p == b || p == c
    ensures a.0 != b.0 && a.0 != c.0 && b.0 != c.0 ==> Dictionary([a, b, c])
  {
  }

  lemma KeysDiffer()
    ensures "cart_id" != "address_id" && "cart_id" != "payment_method_id" && "address_id" != "payment_method_id"
  {
    assert |"cart_id"| != |"address_id"| && |"cart_id"| != |"payment_method_id"|;
    assert |"address_id"| != |"payment_method_id"|;
  }

  // ------------------------------------------------------- the text itself

  /** A character that stands for itself in JSON text: printable ASCII but the quote and the backslash. */
  predicate Plain(c: char)
  {
    ' ' <= c <= '~' && c != '\"' && c != '\\'
  }

  /** How each kind of character is written: itself, a short escape, or four lower-case hexadecimal digits. */
  lemma EscapeForms(c: char)
    ensures Plain(c) ==> Escape(c) == [c]
    ensures Escape('\"') == "\\\"" && Escape('\\') == "\\\\" && Escape('\n') == "\\n" && Escape('\r') == "\\r"
    ensures Escape('\t') == "\\t" && Escape(8 as char) == "\\b" && Escape(12 as char) == "\\f"
    ensures c as int < 0x10000 && !(' ' <= c <= '~') && c as int !in {8, 9, 10, 12, 13} ==>
              && |Escape(c)| == 6 && Escape(c)[..2] == "\\u"
              && forall i :: 2 <= i < 6 ==> '0' <= Escape(c)[i] <= '9' || 'a' <= Escape(c)[i] <= 'f'
    ensures c as int >= 0x10000 ==> |Escape(c)| == 12
  {
  }

  /** The digits are in the usual order, most significant first. */
  lemma EscapeExamples()
    ensures Escape(0xE9 as char) == "\\u00e9" && Escape(0x7F as char) == "\\u007f"
  {
    assert 0xE9 / 16 / 16 == 0 && 0xE9 / 16 % 16 == 14 && 0xE9 % 16 == 9;
  }

  /** A character beyond the first plane is written as a surrogate pair. */
  lemma PairExample()
    ensures Escape(0x1F600 as char) == "\\ud83d\\ude00"
  {
    assert (0x1F600 - 0x10000) / 1024 == 0x3D && (0x1F600 - 0x10000) % 1024 == 0x200;
    assert Unit(0xD83D) == "\\ud83d" && Unit(0xDE00) == "\\ude00";
  }

  lemma {:induction false} PlainIsItself(t: string)
    requires forall i :: 0 <= i < |t| ==> Plain(t[i])
    ensures Quoted(t) == "\"" + t + "\""
    ensures Escaped(t) == t
  {
    if t != "" {
      PlainIsItself(t[1..]);
      EscapeForms(t[0]);
      assert t == [t[0]] + t[1..];
    }
  }

  /** Strings are ordered by their first difference, and a beginning comes before what it begins. */
  lemma {:induction false} BeforeByFirstDifference(p: string, a: string, b: string)
    ensures Before(p + a, p + b) <==> Before(a, b)
    ensures a != "" && b != "" && a[0] != b[0] ==> (Before(a, b) <==> a[0] < b[0])
    ensures Before("", b) <==> b != ""
  {
    if p == "" {
      assert p + a == a && p + b == b;
    } else {
      assert (p + a)[1..] == p[1..] + a && (p + b)[1..] == p[1..] + b;
      BeforeByFirstDifference(p[1..], a, b);
    }
  }

  /** The text of a list of members whose keys and values stand for themselves. */
  function PlainText(pairs: seq<Pair>): string
  {
    if pairs == [] then "" else "\"" + pairs[0].0 + "\":\"" + pairs[0].1 + "\""
                                + if |pairs| == 1 then "" else "," + PlainText(pairs[1..])
  }

  predicate PlainPair(p: Pair)
  {
    (forall i :: 0 <= i < |p.0| ==> Plain(p.0[i])) && forall i :: 0 <= i < |p.1| ==> Plain(p.1[i])
  }

  lemma PlainMember(p: Pair)
    requires PlainPair(p)
    ensures Member(p) == "\"" + p.0 + "\":\"" + p.1 + "\""
  {
    PlainIsItself(p.0);
    PlainIsItself(p.1);
    assert "\"" + p.0 + "\"" + ":" + ("\"" + p.1 + "\"") == "\"" + p.0 + "\":\"" + p.1 + "\"";
  }

  /** Members follow each other with commas and nothing else between them, in braces. */
  lemma {:induction false} ObjectText(pairs: seq<Pair>)
    requires forall i :: 0 <= i < |pairs| ==> PlainPair(pairs[i])
    ensures pairs != [] ==> Tail(pairs) == "," + PlainText(pairs) + "}"
    ensures Object(pairs) == "{" + PlainText(pairs) + "}"
  {
    if pairs != [] {
      ObjectText(pairs[1..]);
      PlainMember(pairs[0]);
      var m := Member(pairs[0]);
      if |pairs| == 1 {
        assert Tail(pairs[1..]) == "}" && PlainText(pairs) == m + "";
        assert m + "" == m;
      } else {
        assert PlainText(pairs) == m + ("," + PlainText(pairs[1..]));
        Regroup(m, "," + PlainText(pairs[1..]), "}");
      }
      Regroup(",", m, Tail(pairs[1..]));
      Regroup("{", m, Tail(pairs[1..]));
      Regroup(",", PlainText(pairs), "}");
      Regroup("{", PlainText(pairs), "}");
    }
  }

  lemma PayloadKeysAscend(cart: string, address: string, instrument: string)
    ensures Ascending([("address_id", address), ("cart_id", cart), ("payment_method_id", instrument)])
  {
    BeforeByFirstDifference("", "address_id", "cart_id");
    BeforeByFirstDifference("", "cart_id", "payment_method_id");
    BeforeByFirstDifference("", "address_id", "payment_method_id");
  }

  /** What both endpoints hash for identifiers in plain characters, to the letter. */
  lemma PayloadText(digest: string -> string, cart: string, address: string, instrument: string)
    requires PlainPair((cart, address)) && PlainPair((instrument, ""))
    ensures Canonical(CartPayload(cart, address, instrument))
         == "{" + PlainText([("address_id", address), ("cart_id", cart), ("payment_method_id", instrument)]) + "}"
    ensures Canonical(OrderPayload(cart, address, instrument)) == Canonical(CartPayload(cart, address, instrument))
    ensures RequestHash(digest, CartPayload(cart, address, instrument))
         == digest("{" + PlainText([("address_id", address), ("cart_id", cart), ("payment_method_id", instrument)]) + "}")
  {
    var sorted := [("address_id", address), ("cart_id", cart), ("payment_method_id", instrument)];
    KeysDiffer();
    PayloadKeysAscend(cart, address, instrument);
    ThreeMembers(("cart_id", cart), ("address_id", address), ("payment_method_id", instrument));
    ThreeMembers(("cart_id", cart), ("payment_method_id", instrument), ("address_id", address));
    ThreeMembers(("address_id", address), ("cart_id", cart), ("payment_method_id", instrument));
    SortedEffect(CartPayload(cart, address, instrument));
    SortedEffect(OrderPayload(cart, address, instrument));
    AscendingIsUnique(Sorted(CartPayload(cart, address, instrument)), sorted);
    AscendingIsUnique(Sorted(OrderPayload(cart, address, instrument)), sorted);
    ObjectText(sorted);
  }
}
