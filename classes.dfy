/** The older Signal of classes.py: a sample list and the value column derived from it. */
module Classes {
  import opened Common

  class Signal {
    /** signalSamples: the (timestamp, value) rows. */
    var signalSamples: seq<Sample>
    /** signalValues: the value column, rebuilt by UpdateValues. */
    var signalValues: seq<real>

    /** Both lists start empty. */
    constructor ()
      ensures signalSamples == [] && signalValues == []
    {
      signalSamples := [];
      signalValues := [];
    }

    /** update_values: clears the value list, then appends the value of every sample
        in turn. The result depends on the samples only, so a second call changes
        nothing. */
    method UpdateValues()
      modifies this`signalValues
      ensures signalValues == Values(signalSamples)
    {
      signalValues := [];
      for i := 0 to |signalSamples|
        invariant |signalValues| == i
        invariant forall k :: 0 <= k < i ==> signalValues[k] == signalSamples[k].value
      {
        signalValues := signalValues + [signalSamples[i].value];
      }
    }
  }
}
