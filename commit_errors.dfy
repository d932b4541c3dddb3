/** Classification of the outcome of one append run of the image tool. */
module CommitErrors {

  import opened Text

  const NoSpaceMarker := "No space left on device"

  /** What one append run amounts to. */
  datatype Outcome =
    | Appended
    | TimedOut
    | SpaceExhausted
    | CommitFailed(diagnostic: string)

  /** The outcome of an append run, given whether it overran its time
      limit, its exit status and its diagnostic text. */
  function Classify(timedOut: bool, returnCode: int, stderr: string): (o: Outcome)
    ensures o == Appended <==> !timedOut && returnCode == 0
    ensures o == TimedOut <==> timedOut
    ensures o == SpaceExhausted <==> !timedOut && returnCode != 0 && Contains(stderr, NoSpaceMarker)
    ensures o.CommitFailed? <==> !timedOut && returnCode != 0 && !Contains(stderr, NoSpaceMarker)
    ensures o.CommitFailed? ==> o.diagnostic == stderr
  {
    if timedOut then TimedOut
    else if returnCode != 0 then
      if ContainsText(stderr, NoSpaceMarker) then SpaceExhausted
      else CommitFailed(stderr)
    else Appended
  }

  /** A diagnostic that carries the out-of-space text anywhere in it is
      classified as exhausted space, whatever surrounds it. */
  lemma SpaceMarkerAnywhere(prefix: string, suffix: string, returnCode: int)
    requires returnCode != 0
    ensures Classify(false, returnCode, prefix + NoSpaceMarker + suffix) == SpaceExhausted
  {
    var s := prefix + NoSpaceMarker + suffix;
    assert s[|prefix|..|prefix| + |NoSpaceMarker|] == NoSpaceMarker;
    assert OccursAt(s, NoSpaceMarker, |prefix|);
  }
}
