/** What JavaScript's `s.split(/\s+/)` means: the text cut at its maximal
    runs of white space. */
module WordSplit {
  import opened Text

  /** The white-space runs `SplitWs` cuts at, in order. */
  function WsGaps(s: string): seq<string>
    decreases |s|
  {
    var i := NonSpaceSpan(s);
    if i == |s| then []
    else
      var j := i + SpaceSpan(s[i..]);
      [s[i..j]] + WsGaps(s[j..])
  }

  /** The pieces with the gaps put back between them. */
  function Interleave(pieces: seq<string>, gaps: seq<string>): string
    requires |pieces| == |gaps| + 1
    decreases |gaps|
  {
    if gaps == [] then pieces[0] else pieces[0] + gaps[0] + Interleave(pieces[1..], gaps[1..])
  }

  /** `s.split(/\s+/)` cuts `s` at its maximal white-space runs: no piece
      holds white space, each gap is a non-empty run of white space, and
      the pieces with the gaps between them give back `s`. */
  lemma SplitWsShape(s: string)
    ensures |WsGaps(s)| + 1 == |SplitWs(s)|
    ensures forall k, i :: 0 <= k < |SplitWs(s)| && 0 <= i < |SplitWs(s)[k]| ==> !IsJsSpace(SplitWs(s)[k][i])
    ensures forall k :: 0 <= k < |WsGaps(s)| ==> WsGaps(s)[k] != []
    ensures forall k, i :: 0 <= k < |WsGaps(s)| && 0 <= i < |WsGaps(s)[k]| ==> IsJsSpace(WsGaps(s)[k][i])
    ensures Interleave(SplitWs(s), WsGaps(s)) == s
  {
    SplitWsRejoins(s);
    SplitWsPiecesHaveNoSpace(s);
    WsGapsAreSpace(s);
  }

  lemma {:induction false} SplitWsRejoins(s: string)
    ensures |WsGaps(s)| + 1 == |SplitWs(s)|
    ensures Interleave(SplitWs(s), WsGaps(s)) == s
    decreases |s|
  {
    var i := NonSpaceSpan(s);
    if i < |s| {
      var j := i + SpaceSpan(s[i..]);
      assert s[i..][0] == s[i];
      var rest := s[j..];
      SplitWsRejoins(rest);
      var pieces := SplitWs(s);
      var gaps := WsGaps(s);
      assert pieces == [s[..i]] + SplitWs(rest);
      assert gaps == [s[i..j]] + WsGaps(rest);
      InterleaveCons(s[..i], s[i..j], SplitWs(rest), WsGaps(rest));
      ThreeSlices(s, i, j);
    }
  }

  lemma InterleaveCons(p: string, g: string, pieces: seq<string>, gaps: seq<string>)
    requires |pieces| == |gaps| + 1
    ensures Interleave([p] + pieces, [g] + gaps) == p + g + Interleave(pieces, gaps)
  {
    assert ([p] + pieces)[1..] == pieces && ([g] + gaps)[1..] == gaps;
  }

  lemma ThreeSlices<T>(s: seq<T>, i: nat, j: nat)
    requires i <= j <= |s|
    ensures s[..i] + s[i..j] + s[j..] == s
  {
  }

  lemma {:induction false} SplitWsPiecesHaveNoSpace(s: string)
    ensures forall k, i :: 0 <= k < |SplitWs(s)| && 0 <= i < |SplitWs(s)[k]| ==> !IsJsSpace(SplitWs(s)[k][i])
    decreases |s|
  {
    var i := NonSpaceSpan(s);
    if i < |s| {
      var j := i + SpaceSpan(s[i..]);
      assert s[i..][0] == s[i];
      SplitWsPiecesHaveNoSpace(s[j..]);
      var pieces := SplitWs(s);
      forall k, m | 0 <= k < |pieces| && 0 <= m < |pieces[k]|
        ensures !IsJsSpace(pieces[k][m])
      {
        if k > 0 {
          assert pieces[k] == SplitWs(s[j..])[k - 1];
        }
      }
    }
  }

  lemma {:induction false} WsGapsAreSpace(s: string)
    ensures forall k :: 0 <= k < |WsGaps(s)| ==> WsGaps(s)[k] != []
    ensures forall k, i :: 0 <= k < |WsGaps(s)| && 0 <= i < |WsGaps(s)[k]| ==> IsJsSpace(WsGaps(s)[k][i])
    decreases |s|
  {
    var i := NonSpaceSpan(s);
    if i < |s| {
      var n := SpaceSpan(s[i..]);
      var j := i + n;
      assert s[i..][0] == s[i];
      var first := s[i..j];
      assert first == s[i..][..n];
      assert first != [] && forall m :: 0 <= m < |first| ==> IsJsSpace(first[m]);
      WsGapsAreSpace(s[j..]);
      assert WsGaps(s) == [first] + WsGaps(s[j..]);
      AllSpaceCons(first, WsGaps(s[j..]));
    }
  }

  /** Prepending one non-empty run of white space keeps every gap such a run. */
  lemma AllSpaceCons(g: string, gaps: seq<string>)
    requires g != [] && forall m :: 0 <= m < |g| ==> IsJsSpace(g[m])
    requires forall k :: 0 <= k < |gaps| ==> gaps[k] != []
    requires forall k, i :: 0 <= k < |gaps| && 0 <= i < |gaps[k]| ==> IsJsSpace(gaps[k][i])
    ensures forall k :: 0 <= k < |[g] + gaps| ==> ([g] + gaps)[k] != []
    ensures forall k, i :: 0 <= k < |[g] + gaps| && 0 <= i < |([g] + gaps)[k]| ==> IsJsSpace(([g] + gaps)[k][i])
  {
    forall k | 0 < k < |[g] + gaps|
      ensures ([g] + gaps)[k] == gaps[k - 1]
    {
    }
  }
}
