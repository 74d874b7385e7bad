/** List helpers shared by the chat components. */
module Lists {

  /** A browser `File` as the components see it: an opaque value they list, attach and send. */
  datatype File = File(name: string, size: nat, mimeType: string)

  /**
   * `list.filter((_, i) => i !== index)`: keeps every element whose position differs from `index`.
   * An index outside the list removes nothing.
   */
  function WithoutIndex<T>(s: seq<T>, index: int): (r: seq<T>)
    ensures |r| == if 0 <= index < |s| then |s| - 1 else |s|
    decreases |s|
  {
    if s == [] then [] else (if index == 0 then [] else [s[0]]) + WithoutIndex(s[1..], index - 1)
  }

  /** Filtering out one position is the same as splicing that element out: everything else stays, in order. */
  lemma {:induction false} WithoutIndexSplices<T>(s: seq<T>, index: int)
    ensures WithoutIndex(s, index) == if 0 <= index < |s| then s[..index] + s[index + 1..] else s
    decreases |s|
  {
    if s != [] {
      WithoutIndexSplices(s[1..], index - 1);
      if 0 < index < |s| {
        assert [s[0]] + s[1..][..index - 1] == s[..index];
        assert s[1..][index..] == s[index + 1..];
      } else if index != 0 {
        assert [s[0]] + s[1..] == s;
      }
    }
  }
}
