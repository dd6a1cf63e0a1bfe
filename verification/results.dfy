/** Failure-compatible wrappers shared by every module of the model.

    The Python code signals failure by raising; each exception it can raise
    on the modelled paths becomes one constructor of `Error`, and every
    operation that can raise returns a `Result`.
 */
module Results {

  datatype Option<+T> = None | Some(value: T)

  /** The exceptions the modelled code can raise. */
  datatype Error =
    | PaletteNotFound(palette: string)   // ValueError raised for an unknown palette name
    | NegativeSampleCount(count: int)     // ValueError raised by linspace for a negative count
    | IndexOutOfRange                     // IndexError of a list or array subscript
    | KeyMissing(key: string)             // KeyError of a dictionary lookup
    | EmptyGrid                           // ValueError of a max over a zero-size array
    | InvalidTitle(title: string)         // ValueError("Invalid title") of the selector

  datatype Result<+T> = Success(value: T) | Failure(error: Error) {

    predicate IsFailure() {
      Failure?
    }

    function PropagateFailure<U>(): Result<U>
      requires Failure?
    {
      Failure(error)
    }

    function Extract(): T
      requires Success?
    {
      value
    }
  }

  /** Python's `d[key]`: the stored value, or a KeyError. */
  function Lookup<V>(m: map<string, V>, key: string): (r: Result<V>)
    ensures r.Success? <==> key in m
    ensures r.Success? ==> r.value == m[key]
    ensures r.Failure? ==> r.error == KeyMissing(key)
  {
    if key in m then Success(m[key]) else Failure(KeyMissing(key))
  }

  /** A loop that appends one result per step and stops at the first
      exception: all the values in order, or the first failure. */
  function Collect<T>(rs: seq<Result<T>>): (r: Result<seq<T>>)
    ensures r.Success? <==> forall k :: 0 <= k < |rs| ==> rs[k].Success?
    ensures r.Success? ==> |r.value| == |rs|
    ensures r.Success? ==> forall k :: 0 <= k < |rs| ==> rs[k] == Success(r.value[k])
    ensures r.Failure? ==>
      exists k :: (0 <= k < |rs| && rs[k] == Failure(r.error)
                   && forall j :: 0 <= j < k ==> rs[j].Success?)
    decreases |rs|
  {
    if |rs| == 0 then Success([])
    else
      var first :- rs[0];
      assert forall k :: 1 <= k < |rs| ==> rs[1..][k - 1] == rs[k];
      var rest :- Collect(rs[1..]);
      Success([first] + rest)
  }
}
