/** Sequences as the shapes of linked lists. */
module Lists {
  /** The list without the element at position `at`. */
  function Without<T>(s: seq<T>, at: nat): (t: seq<T>)
    requires at < |s|
    ensures |t| == |s| - 1
    ensures forall i {:trigger t[i]} :: 0 <= i < |t| ==> t[i] == s[if i < at then i else i + 1]
  {
    s[..at] + s[at + 1..]
  }
}
