/** Parameter directions and their Doxygen spelling ("[in]", "[out]", "[in,out]"). */
module ParamDirections {

  datatype ParamDirection = In | InOut | Out

  function DirectionToString(dir: ParamDirection): (s: string)
    ensures |s| >= 4 && s[0] == '[' && s[|s| - 1] == ']'
    ensures forall i :: 0 < i < |s| - 1 ==> 'a' <= s[i] <= 'z' || s[i] == ','
  {
    match dir
    case In => "[in]"
    case Out => "[out]"
    case InOut => "[in,out]"
  }

  /** Reads a direction back; anything that is not one of the three spellings means In. */
  function ToDirection(val: string): (r: ParamDirection)
    ensures r == In || val == DirectionToString(r)
  {
    if val == "[out]" then Out
    else if val == "[in,out]" then InOut
    else In
  }

  /** Reading back a written direction gives the direction itself. */
  lemma DirectionRoundTrip(dir: ParamDirection)
    ensures ToDirection(DirectionToString(dir)) == dir
  {
  }

  /** Distinct directions are written differently. */
  lemma DirectionToStringInjective(a: ParamDirection, b: ParamDirection)
    requires DirectionToString(a) == DirectionToString(b)
    ensures a == b
  {
    DirectionRoundTrip(a);
    DirectionRoundTrip(b);
  }

  /** An unrecognised spelling is read as In. */
  lemma ToDirectionDefault(val: string)
    requires forall d: ParamDirection :: DirectionToString(d) != val
    ensures ToDirection(val) == In
  {
    assert DirectionToString(Out) != val;
    assert DirectionToString(InOut) != val;
  }
}
