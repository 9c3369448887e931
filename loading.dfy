/** The loading screen's text (src/ui/loading.rs): "Loading", one dot per
    animation phase, then spaces up to a fixed width so the centred text does
    not shift as the dots grow. */
module LoadingView {
  import opened Text

  /** `dotCount` must be at most 3: the source subtracts it from 3 in unsigned
      arithmetic. */
  function LoadingText(dotCount: nat): (r: string)
    requires dotCount <= 3
    ensures |r| == 10
    ensures r[..7] == "Loading"
    ensures forall i :: 7 <= i < 7 + dotCount ==> r[i] == '.'
    ensures forall i :: 7 + dotCount <= i < 10 ==> r[i] == ' '
  {
    "Loading" + Repeat('.', dotCount) + Repeat(' ', 3 - dotCount)
  }

  /** The text holds exactly `dotCount` dots. */
  lemma LoadingDots(dotCount: nat)
    requires dotCount <= 3
    ensures Count(LoadingText(dotCount), '.') == dotCount
  {
    var dots, pad := Repeat('.', dotCount), Repeat(' ', 3 - dotCount);
    assert LoadingText(dotCount) == "Loading" + dots + pad;
    CountAppend("Loading" + dots, pad, '.');
    CountAppend("Loading", dots, '.');
    CountAbsent("Loading", '.');
    CountRepeat(dots, '.', dotCount);
    CountAbsent(pad, '.');
  }

  /** Every phase of the animation has the same width. */
  lemma LoadingWidthConstant(a: nat, b: nat)
    requires a <= 3 && b <= 3
    ensures |LoadingText(a)| == |LoadingText(b)|
  {
  }
}
