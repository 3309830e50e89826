/**
  The two helpers that wrap values in heap arrays for pbrt::ParamSet:
  makeSingle and makeMulti.
 */
module ParamArrays {

  /** makeSingle: allocates a one-element array and stores `v` in it. */
  method MakeSingle<T(0)>(v: T) returns (a: array<T>)
    ensures fresh(a)
    ensures a.Length == 1 && a[0] == v
  {
    a := new T[1];
    a[0] := v;
  }

  /** makeMulti: allocates an array as long as `vals` and copies `vals` into
      it in order; `i` counts the elements copied so far. */
  method MakeMulti<T(0)>(vals: seq<T>) returns (a: array<T>)
    ensures fresh(a)
    ensures a.Length == |vals|
    ensures forall k :: 0 <= k < |vals| ==> a[k] == vals[k]
  {
    a := new T[|vals|];
    var i := 0;
    while i < |vals|
      invariant 0 <= i <= |vals| == a.Length
      invariant forall k :: 0 <= k < i ==> a[k] == vals[k]
    {
      a[i] := vals[i];
      i := i + 1;
    }
  }
}
