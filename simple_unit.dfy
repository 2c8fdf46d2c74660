/**
 * The port wiring shared by the single-input units of net.py (class
 * ComputeUnitSimple and the linear, sigmoid, relu, tanh, pooling, dropout,
 * LRN and fully connected units built on it): forward feeds the first
 * input port to `ff` and stores the result on the first output port;
 * backward feeds the first output port's gradient to `bp` and stores the
 * result on the first input port.
 */
module SimpleUnits {
  import opened Wrappers
  import opened Dataflow

  /**
   * ComputeUnitSimple.forward: IndexError without input or output names,
   * KeyError when the first input port is absent.
   */
  function SimpleForward<T>(btmNames: seq<Port>, topNames: seq<Port>, fromBtm: map<Port, T>, ff: T -> T): (r: Result<map<Port, T>>)
    ensures r.Ok? <==> |btmNames| > 0 && btmNames[0] in fromBtm && |topNames| > 0
    ensures r.Err? ==> r.error == (if |btmNames| > 0 && btmNames[0] in fromBtm then IndexError
                                   else if |btmNames| > 0 then KeyError else IndexError)
    ensures r.Ok? ==> r.value.Keys == {topNames[0]} && r.value[topNames[0]] == ff(fromBtm[btmNames[0]])
  {
    if |btmNames| == 0 then Err(IndexError)
    else if btmNames[0] !in fromBtm then Err(KeyError)
    else
      var out := ff(fromBtm[btmNames[0]]);
      if |topNames| == 0 then Err(IndexError) else Ok(map[topNames[0] := out])
  }

  /** ComputeUnitSimple.backward: the same wiring with the roles of the two name lists swapped. */
  function SimpleBackward<T>(btmNames: seq<Port>, topNames: seq<Port>, fromTop: map<Port, T>, bp: T -> T): (r: Result<map<Port, T>>)
    ensures r.Ok? <==> |topNames| > 0 && topNames[0] in fromTop && |btmNames| > 0
    ensures r.Ok? ==> r.value.Keys == {btmNames[0]} && r.value[btmNames[0]] == bp(fromTop[topNames[0]])
  {
    if |topNames| == 0 then Err(IndexError)
    else if topNames[0] !in fromTop then Err(KeyError)
    else
      var g := bp(fromTop[topNames[0]]);
      if |btmNames| == 0 then Err(IndexError) else Ok(map[btmNames[0] := g])
  }

  /**
   * LinearUnit.ff and LinearUnit.bp: the identity, so a linear unit hands
   * its first input through to its first output, and the gradient back.
   */
  function Identity<T>(x: T): T
  {
    x
  }
}
