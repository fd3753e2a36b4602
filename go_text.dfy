/**
 * The few Go standard-library text functions the plugin relies on, on
 * strings modelled as `seq<char>`: `strings.Replace` with a one-character
 * pattern, `strings.Trim` with the cut set "\r\n", and `strconv.ParseBool`.
 */
module GoText {
  import opened Wrappers

  /** `strings.Replace(s, string(from), string(to), -1)` for one-character patterns. */
  function ReplaceChar(s: string, from: char, to: char): (r: string)
    ensures |r| == |s|
    ensures forall i :: 0 <= i < |s| ==> r[i] == (if s[i] == from then to else s[i])
  {
    if s == [] then [] else [if s[0] == from then to else s[0]] + ReplaceChar(s[1..], from, to)
  }

  /** A member of the cut set "\r\n". */
  predicate IsLineBreak(c: char) {
    c == '\r' || c == '\n'
  }

  /** `s` starts or ends with a carriage return or a line feed. */
  predicate HasLineBreakEdge(s: string) {
    |s| > 0 && (IsLineBreak(s[0]) || IsLineBreak(s[|s| - 1]))
  }

  /** The first index at or after `i` that does not hold a line break (`|s|` when there is none). */
  function TrimStart(s: string, i: nat): (k: nat)
    requires i <= |s|
    ensures i <= k <= |s|
    ensures forall j :: i <= j < k ==> IsLineBreak(s[j])
    ensures k < |s| ==> !IsLineBreak(s[k])
    decreases |s| - i
  {
    if i < |s| && IsLineBreak(s[i]) then TrimStart(s, i + 1) else i
  }

  /** One past the last index before `j`, and not before `lo`, that does not hold a line break (`lo` when there is none). */
  function TrimEnd(s: string, lo: nat, j: nat): (k: nat)
    requires lo <= j <= |s|
    ensures lo <= k <= j
    ensures forall m :: k <= m < j ==> IsLineBreak(s[m])
    ensures k > lo ==> !IsLineBreak(s[k - 1])
    decreases j
  {
    if j > lo && IsLineBreak(s[j - 1]) then TrimEnd(s, lo, j - 1) else j
  }

  /**
   * `strings.Trim(s, "\r\n")`: drop the leading line breaks, then the trailing
   * line breaks of what is left.
   */
  function Trim(s: string): (r: string)
    ensures !HasLineBreakEdge(r)
    ensures !HasLineBreakEdge(s) ==> r == s
  {
    var a := TrimStart(s, 0);
    s[a..TrimEnd(s, a, |s|)]
  }

  /**
   * `Trim` keeps one contiguous run of `s`, and every character it cuts away,
   * before or after that run, is a line break.
   */
  lemma TrimCutsOnlyLineBreaks(s: string)
    ensures var a := TrimStart(s, 0);
      var e := TrimEnd(s, a, |s|);
      && Trim(s) == s[a..e]
      && forall i :: 0 <= i < |s| && (i < a || e <= i) ==> IsLineBreak(s[i])
  {
  }

  /** Trimming is idempotent. */
  lemma TrimIdempotent(s: string)
    ensures Trim(Trim(s)) == Trim(s)
  {
  }

  /** `strconv.ParseBool`: the six spellings of true, the six of false, otherwise an error. */
  function ParseBool(s: string): (r: Option<bool>)
    ensures r == Some(true) <==> s in TrueSpellings()
    ensures r == Some(false) <==> s in FalseSpellings()
  {
    if s in TrueSpellings() then Some(true)
    else if s in FalseSpellings() then Some(false)
    else None
  }

  function TrueSpellings(): set<string> {
    {"1", "t", "T", "TRUE", "true", "True"}
  }

  function FalseSpellings(): set<string> {
    {"0", "f", "F", "FALSE", "false", "False"}
  }
}
