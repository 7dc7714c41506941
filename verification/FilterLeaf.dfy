/** The leaf expression recognises exactly the leaf it was given. */
module FilterLeaf {
  import opened Options
  import opened FilterText
  import opened FilterSpec
  import opened FilterRoundTrip

  lemma {:induction false} IndexOfIs(s: string, c: char, i: nat, k: nat)
    requires i <= k < |s| && s[k] == c && c !in s[i..k]
    ensures IndexOf(s, c, i) == Some(k)
    decreases k - i
  {
    if i < k {
      assert s[i] == s[i..k][0] && s[i..k][1..] == s[i + 1..k];
      IndexOfIs(s, c, i + 1, k);
    }
  }

  lemma SkipUpperIs(s: string, i: nat, k: nat)
    requires i <= k < |s| && (forall j :: i <= j < k ==> IsUpper(s[j])) && !IsUpper(s[k])
    ensures SkipUpper(s, i) == k
  {
  }

  lemma FindCloseIs(s: string, v: nat, e: nat)
    requires v < e && ClosesValue(s, v, e) && forall k :: v + 1 <= k < e ==> !ClosesValue(s, v, k)
    ensures FindClose(s, v, v + 1) == Some(e)
  {
  }

  predicate Capitals(op: string) { op != "" && forall j :: 0 <= j < |op| ==> IsUpper(op[j]) }

  lemma OperatorShape(op: string)
    requires IsLeafOperator(op)
    ensures Capitals(op)
  {
    assert |op| == 2 || op == "HAS";
  }

  /** The positions of the pieces of a leaf at the front of the input. */
  ghost predicate LaidOut(s: string, key: string, op: string, value: string) {
    var k := 1 + |key|;
    var m := k + 2 + |op|;
    var e := m + 2 + |value|;
    && e + 2 <= |s| && s[0] == '\'' && s[1..k] == key && s[k] == '\'' && s[k + 1] == ','
    && s[k + 2..m] == op && s[m] == ',' && s[m + 1] == '\'' && s[m + 2..e] == value
    && s[e] == '\'' && s[e + 1] == ')'
  }

  lemma LeafLaidOut(key: string, op: string, value: string, rest: string)
    ensures LaidOut(LeafText(key, op, value) + ")" + rest, key, op, value)
  {
    var s := LeafText(key, op, value) + ")" + rest;
    var k := 1 + |key|;
    var m := k + 2 + |op|;
    var e := m + 2 + |value|;
    var a := "'" + key;
    var b := a + "',";
    var c := b + op;
    var d := c + ",'";
    assert s == d + value + "'" + ")" + rest;
    assert s[..1] == "'" && s[1..k] == key && s[k..k + 2] == "',";
    assert s[k + 2..m] == op && s[m..m + 2] == ",'" && s[m + 2..e] == value && s[e..e + 2] == "')";
  }

  /** What MatchLeafAt computes once its searches have been answered. */
  lemma MatchFrom(s: string, k: nat, m: nat, e: nat)
    requires s != "" && s[0] == '\'' && IndexOf(s, '\'', 1) == Some(k) && 1 < k && k + 2 <= |s| && s[k..k + 2] == "',"
    requires SkipUpper(s, k + 2) == m && k + 2 < m && m + 2 <= |s| && s[m..m + 2] == ",'"
    requires FindClose(s, m + 2, m + 3) == Some(e)
    ensures MatchLeafAt(s, 0) == Some(e + 2)
  {
  }

  lemma MatchExact(s: string, key: string, op: string, value: string)
    requires LaidOut(s, key, op, value) && key != "" && '\'' !in key && Capitals(op) && ValueOk(value)
    ensures MatchLeafAt(s, 0) == Some(|key| + |op| + |value| + 7)
  {
    hide MatchLeafAt, FindClose, IndexOf, SkipUpper, ValueOk;
    var k := 1 + |key|;
    var m := k + 2 + |op|;
    IndexOfIs(s, '\'', 1, k);
    assert forall j :: k + 2 <= j < m ==> s[j] == op[j - (k + 2)];
    SkipUpperIs(s, k + 2, m);
    assert s[k..k + 2] == "'," && s[m..m + 2] == ",'";
    ClosesExactly(s, m + 2, value);
    MatchFrom(s, k, m, m + 2 + |value|);
  }

  lemma ClosesExactly(s: string, v: nat, value: string)
    requires v + |value| + 2 <= |s| && s[v..v + |value|] == value && ValueOk(value)
    requires s[v + |value|] == '\'' && s[v + |value| + 1] == ')'
    ensures FindClose(s, v, v + 1) == Some(v + |value|)
  {
    var e := v + |value|;
    assert forall j :: 0 <= j < |value| ==> value[j] == s[v + j];
    assert s[v..e - 1] == value[..|value| - 1];
    forall k | v + 1 <= k < e ensures !ClosesValue(s, v, k) {
      assert s[k] == value[k - v] && s[k - 1] == value[k - v - 1];
      assert k + 1 < e ==> s[k + 1] == value[k - v + 1];
    }
    FindCloseIs(s, v, e);
  }

  /** The first piece ends at the first comma. */
  lemma CutOne(a: string, b: string, n: nat)
    requires ',' !in a && n > 1
    ensures SplitN(a + "," + b, n) == [a] + SplitN(b, n - 1)
  {
    var s := a + "," + b;
    assert s[..|a|] == a && s[|a|] == ',' && s[|a| + 1..] == b;
    IndexOfIs(s, ',', 0, |a|);
  }

  lemma CutExact(leaf: string, key: string, op: string, value: string)
    requires leaf == LeafText(key, op, value) + ")" && ',' !in key && ',' !in op
    ensures SplitN(TrimPrefix(leaf, "'"), 3) == [key + "'", op, "'" + value + "')"]
  {
    hide SplitN;
    var last := "'" + value + "')";
    var tail := op + "," + last;
    var body := key + "'" + "," + tail;
    assert leaf == "'" + body;
    assert TrimPrefix(leaf, "'") == body;
    CutOne(key + "'", tail, 3);
    CutOne(op, last, 2);
    NoCut(last);
  }

  lemma NoCut(s: string)
    ensures SplitN(s, 1) == [s]
  {
  }

  lemma TrimExact(key: string, value: string)
    ensures TrimSuffix(key + "'", "'") == key
    ensures TrimSuffix(TrimPrefix("'" + value + "')", "'"), "')") == value
  {
    var a := "'" + value + "')";
    assert a == "'" + (value + "')");
    assert TrimPrefix(a, "'") == value + "')";
    assert (key + "'")[|key|..] == "'";
    assert (value + "')")[|value|..] == "')";
  }

  lemma NoComma(op: string)
    requires Capitals(op)
    ensures ',' !in op
  {
  }

  /** Whatever follows it, a leaf is read back as its own key, operator and value, or not at all if it
      has another operator. */
  lemma ScanExact(key: string, op: string, value: string, rest: string)
    requires KeyText(key) && Capitals(op) && ValueOk(value)
    ensures ScanLeaf(LeafText(key, op, value) + ")" + rest) ==
            if IsLeafOperator(op) then Some(LeafToken(key, op, value)) else None
  {
    hide MatchLeafAt, SplitN, TrimPrefix, TrimSuffix, IsLeafOperator, ValueOk, LaidOut, Capitals;
    var s := LeafText(key, op, value) + ")" + rest;
    LeafLaidOut(key, op, value, rest);
    MatchExact(s, key, op, value);
    var leaf := LeafText(key, op, value) + ")";
    assert |leaf| == |key| + |op| + |value| + 7;
    assert s[0..|leaf|] == leaf;
    assert ',' !in op by { NoComma(op); }
    CutExact(leaf, key, op, value);
    TrimExact(key, value);
  }
}
