/** Small types shared by every module of the model. */
module Common {

  datatype Option<+T> = None | Some(value: T)

  /** A (workspace id, run or plan id) pair: the key under which plans and task graphs are kept. */
  datatype RunId = RunId(workspace: string, id: string)

  /** The elements of `s` that differ from position `i`, in order. */
  function RemoveAt<T>(s: seq<T>, i: nat): (r: seq<T>)
    requires i < |s|
    ensures |r| == |s| - 1
  {
    s[..i] + s[i + 1..]
  }
}
