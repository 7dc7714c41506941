/** The lexical part of the filter parser: the leaf expression, the string helpers it is cut up
    with, and the rewriting of JSON keys. A string is a sequence of characters; ByteLen is the
    length the source's len() reports. */
module FilterText {
  import opened Options

  const AND := "AND"
  const OR := "OR"

  predicate IsLeafOperator(op: string) {
    op in {"EQ", "GE", "GT", "LE", "LT", "NE"} || op in {"IL", "LK", "NL"} || op == "HAS"
  }

  predicate IsUpper(c: char) { 'A' <= c <= 'Z' }

  // ----- Byte lengths -----

  function CharBytes(c: char): nat {
    if c < '\U{80}' then 1 else if c < '\U{800}' then 2 else if c < '\U{10000}' then 3 else 4
  }

  function ByteLen(s: string): (n: nat)
    ensures n >= |s|
  {
    if s == "" then 0 else CharBytes(s[0]) + ByteLen(s[1..])
  }

  function Power(n: nat): nat { if n == 0 then 1 else 2 * Power(n - 1) }

  /** In UTF-8 one byte carries seven bits, and n bytes carry 5n + 1: a character takes the fewest bytes
      that can carry it. */
  lemma BytesNeeded(c: char, n: nat)
    requires 1 <= n <= 4
    ensures CharBytes(c) <= n <==> c as int < Power(if n == 1 then 7 else 5 * n + 1)
  {
    assert Power(7) == 0x80;
    assert Power(11) == 0x800 by { assert Power(11) == 16 * Power(7); }
    assert Power(16) == 0x1_0000 by { assert Power(16) == 32 * Power(11); }
    assert Power(21) == 0x20_0000 by { assert Power(21) == 32 * Power(16); }
  }

  predicate Ascii(s: string) { forall i :: 0 <= i < |s| ==> s[i] < '\U{80}' }

  lemma {:induction false} AsciiBytes(s: string)
    ensures ByteLen(s) == |s| <==> Ascii(s)
  {
    if s != "" {
      AsciiBytes(s[1..]);
      assert Ascii(s) <==> s[0] < '\U{80}' && Ascii(s[1..]) by {
        assert forall i :: 1 <= i < |s| ==> s[i] == s[1..][i - 1];
      }
    }
  }

  lemma {:induction false} BytesConcat(a: string, b: string)
    ensures ByteLen(a + b) == ByteLen(a) + ByteLen(b)
  {
    if a == "" {
      assert a + b == b;
    } else {
      assert (a + b)[1..] == a[1..] + b;
      BytesConcat(a[1..], b);
    }
  }

  // ----- Searching -----

  /** First position at or after i that holds c. */
  function IndexOf(s: string, c: char, i: nat): (r: Option<nat>)
    requires i <= |s|
    ensures r.Some? ==> i <= r.value < |s| && s[r.value] == c && c !in s[i..r.value]
    ensures r.None? ==> c !in s[i..]
    decreases |s| - i
  {
    if i == |s| then None
    else if s[i] == c then Some(i)
    else
      var r := IndexOf(s, c, i + 1);
      assert s[i..] == [s[i]] + s[i + 1..];
      assert r.Some? ==> s[i..r.value] == [s[i]] + s[i + 1..r.value];
      r
  }

  /** End of the run of capitals that starts at i. */
  function SkipUpper(s: string, i: nat): (r: nat)
    requires i <= |s|
    ensures i <= r <= |s| && (forall k :: i <= k < r ==> IsUpper(s[k])) && (r < |s| ==> !IsUpper(s[r]))
    decreases |s| - i
  {
    if i < |s| && IsUpper(s[i]) then SkipUpper(s, i + 1) else i
  }

  /** A quote followed by ')' at e, not escaped, with a value before it that has no line break
      except possibly in its last character. */
  predicate ClosesValue(s: string, v: nat, e: nat) {
    && v < e && e + 1 < |s|
    && s[e] == '\'' && s[e + 1] == ')' && s[e - 1] != '\\' && '\n' !in s[v..e - 1]
  }

  function FindClose(s: string, v: nat, e: nat): (r: Option<nat>)
    requires v < e
    ensures r.Some? ==> e <= r.value && ClosesValue(s, v, r.value)
    ensures r.Some? ==> forall k :: e <= k < r.value ==> !ClosesValue(s, v, k)
    ensures r.None? ==> forall k :: e <= k ==> !ClosesValue(s, v, k)
    decreases |s| - e
  {
    if e + 1 >= |s| then None
    else if ClosesValue(s, v, e) then Some(e)
    else FindClose(s, v, e + 1)
  }

  /** Where the leaf expression ends if it matches at position i:
      quote, characters other than quotes, quote, comma, capitals, comma, quote, the shortest
      value that is closed, quote, ')'. */
  function MatchLeafAt(s: string, i: nat): (r: Option<nat>)
    requires i <= |s|
    ensures r.Some? ==> i + 9 <= r.value <= |s|
  {
    if i >= |s| || s[i] != '\'' then None
    else match IndexOf(s, '\'', i + 1)
      case None => None
      case Some(k) =>
        if k == i + 1 || k + 2 > |s| || s[k..k + 2] != "'," then None
        else
          var m := SkipUpper(s, k + 2);
          if m == k + 2 || m + 2 > |s| || s[m..m + 2] != ",'" then None
          else match FindClose(s, m + 2, m + 3)
            case None => None
            case Some(e) => Some(e + 2)
  }

  /** The leftmost match, as regular expression search returns it. */
  function FindLeaf(s: string, i: nat): (r: Option<string>)
    requires i <= |s|
    ensures r.Some? ==> |r.value| >= 9
    decreases |s| - i
  {
    match MatchLeafAt(s, i)
    case Some(e) => Some(s[i..e])
    case None => if i == |s| then None else FindLeaf(s, i + 1)
  }

  // ----- Cutting -----

  function TrimPrefix(s: string, p: string): string {
    if p <= s then s[|p|..] else s
  }

  function TrimSuffix(s: string, p: string): string {
    if |p| <= |s| && s[|s| - |p|..] == p then s[..|s| - |p|] else s
  }

  /** At most n pieces between commas. */
  function SplitN(s: string, n: nat): (r: seq<string>)
    ensures 1 <= |r|
    decreases n
  {
    if n <= 1 then [s]
    else match IndexOf(s, ',', 0)
      case None => [s]
      case Some(i) => [s[..i]] + SplitN(s[i + 1..], n - 1)
  }

  function Find(s: string, sep: string, i: nat): (r: Option<nat>)
    requires i <= |s|
    ensures r.Some? ==> i <= r.value && r.value + |sep| <= |s| && s[r.value..r.value + |sep|] == sep
    decreases |s| - i
  {
    if i + |sep| > |s| then None
    else if s[i..i + |sep|] == sep then Some(i)
    else if i == |s| then None
    else Find(s, sep, i + 1)
  }

  function Split(s: string, sep: string): (r: seq<string>)
    requires sep != ""
    ensures 1 <= |r| && (|r| == 1 ==> r[0] == s)
    ensures |r| == 2 ==> s == r[0] + sep + r[1]
    decreases |s|
  {
    match Find(s, sep, 0)
    case None => [s]
    case Some(i) =>
      var rest := Split(s[i + |sep|..], sep);
      assert s == s[..i] + s[i..i + |sep|] + s[i + |sep|..];
      [s[..i]] + rest
  }

  // ----- Keys -----

  /** A JSON path key gets its last component quoted: what follows its one ->>, whatever -> it has
      besides, or what follows its one ->. More arrows than that are an error. */
  function ParseKey(key: string): Option<string> {
    var deep := Split(key, "->>");
    if |deep| == 2 then Some(deep[0] + "->>'" + deep[1] + "'")
    else
      var parts := Split(key, "->");
      if |parts| == 2 then Some(parts[0] + "->'" + parts[1] + "'")
      else if |parts| == 1 then Some(key)
      else None
  }

  function DropQuotes(s: string): (r: string)
    ensures '\'' !in s ==> r == s
  {
    if s == "" then "" else if s[0] == '\'' then DropQuotes(s[1..]) else [s[0]] + DropQuotes(s[1..])
  }

  lemma {:induction false} DropQuotesConcat(a: string, b: string)
    ensures DropQuotes(a + b) == DropQuotes(a) + DropQuotes(b)
  {
    if a == "" {
      assert a + b == b;
    } else {
      assert (a + b)[1..] == a[1..] + b;
      DropQuotesConcat(a[1..], b);
    }
  }

  lemma DropQuotesArrow(a: string, arrow: string, b: string)
    ensures DropQuotes(a + (arrow + "'") + b + "'") == DropQuotes(a + arrow + b)
  {
    var quote := "'";
    assert DropQuotes(quote) == "" by { assert quote[1..] == ""; }
    DropQuotesConcat(arrow, quote);
    DropQuotesConcat(a, arrow + quote);
    DropQuotesConcat(a + (arrow + quote), b);
    DropQuotesConcat(a + (arrow + quote) + b, quote);
    DropQuotesConcat(a, arrow);
    DropQuotesConcat(a + arrow, b);
  }

  /** Rewriting a key adds quotes and nothing else. */
  lemma ParseKeyAddsQuotes(key: string)
    requires ParseKey(key).Some?
    ensures DropQuotes(ParseKey(key).value) == DropQuotes(key)
  {
    var deep, parts := Split(key, "->>"), Split(key, "->");
    if |deep| == 2 {
      DropQuotesArrow(deep[0], "->>", deep[1]);
      assert "->>" + "'" == "->>'";
    } else if |parts| == 2 {
      DropQuotesArrow(parts[0], "->", parts[1]);
      assert "->" + "'" == "->'";
    }
  }

  /** So dropping quotes undoes it, for a key without any. */
  lemma ParseKeyUndone(key: string)
    requires '\'' !in key && ParseKey(key).Some?
    ensures DropQuotes(ParseKey(key).value) == key
  {
    ParseKeyAddsQuotes(key);
  }
}
