/** Whitespace, as the platform's `trim` and `\s` see it. */
module Text {
  predicate Space(c: char) {
    || c == ' ' || '\t' <= c <= '\r' || c == '\U{00A0}' || c == '\U{1680}' || '\U{2000}' <= c <= '\U{200A}'
    || c == '\U{2028}' || c == '\U{2029}' || c == '\U{202F}' || c == '\U{205F}' || c == '\U{3000}' || c == '\U{FEFF}'
  }

  predicate AllSpace(s: string) {
    forall i :: 0 <= i < |s| ==> Space(s[i])
  }

  function TrimStart(s: string): string {
    if s != "" && Space(s[0]) then TrimStart(s[1..]) else s
  }

  function TrimEnd(s: string): string
    decreases |s|
  {
    if s != "" && Space(s[|s| - 1]) then TrimEnd(s[..|s| - 1]) else s
  }

  function Trim(s: string): string {
    TrimEnd(TrimStart(s))
  }

  lemma {:induction false} TrimStartTells(s: string) returns (n: nat)
    ensures n <= |s| && TrimStart(s) == s[n..] && AllSpace(s[..n]) && (n < |s| ==> !Space(s[n]))
  {
    n := 0;
    if s != "" && Space(s[0]) {
      var m := TrimStartTells(s[1..]);
      n := m + 1;
      assert s[..n] == [s[0]] + s[1..][..m];
    }
  }

  lemma {:induction false} TrimEndTells(s: string) returns (n: nat)
    ensures n <= |s| && TrimEnd(s) == s[..n] && AllSpace(s[n..]) && (n > 0 ==> !Space(s[n - 1]))
    decreases |s|
  {
    n := |s|;
    if s != "" && Space(s[|s| - 1]) {
      n := TrimEndTells(s[..|s| - 1]);
      assert s[n..] == s[..|s| - 1][n..] + [s[|s| - 1]];
      assert s[..|s| - 1][..n] == s[..n];
    } else {
      assert s[..n] == s;
    }
  }

  /** Trimming takes whitespace off both ends, and all of it. */
  lemma {:induction false} TrimTells(s: string) returns (from: nat, to: nat)
    ensures from <= to <= |s| && Trim(s) == s[from..to] && AllSpace(s[..from]) && AllSpace(s[to..])
    ensures from < to ==> !Space(s[from]) && !Space(s[to - 1])
  {
    from := TrimStartTells(s);
    var n := TrimEndTells(s[from..]);
    to := from + n;
    assert s[from..][..n] == s[from..to];
    assert s[to..] == s[from..][n..];
    if from < to {
      assert s[from..][n - 1] == s[to - 1];
    }
  }

  /** And only that: whatever stands between two stretches of it, and begins and ends without it, is what is left. */
  lemma {:induction false} TrimIs(lead: string, x: string, trail: string)
    requires AllSpace(lead) && AllSpace(trail) && (x != "" ==> !Space(x[0]) && !Space(x[|x| - 1]))
    ensures Trim(lead + x + trail) == x
  {
    var s := lead + x + trail;
    var from, to := TrimTells(s);
    if x == "" {
      assert forall i :: 0 <= i < |s| ==> Space(s[i]);
    } else {
      var a, b := |lead|, |lead + x|;
      assert s[a] == x[0] && s[b - 1] == x[|x| - 1];
      assert forall i :: 0 <= i < from ==> s[..from][i] == s[i];
      assert forall i :: to <= i < |s| ==> s[to..][i - to] == s[i];
      assert from == a && to == b;
    }
  }
}
