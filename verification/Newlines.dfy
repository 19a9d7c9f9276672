/** Where a line ends. */
module Newlines {
  /** The index of the first newline, or the length when there is none. */
  function FindNewline(bytes: string): (i: nat)
    ensures i <= |bytes|
    ensures '\n' !in bytes[..i]
    ensures i < |bytes| ==> bytes[i] == '\n'
  {
    if bytes == [] then 0
    else if bytes[0] == '\n' then 0
    else
      var i := 1 + FindNewline(bytes[1..]);
      assert bytes[..i] == [bytes[0]] + bytes[1..][..i - 1];
      i
  }

  lemma {:induction false} FirstNewline(bytes: string, k: nat)
    requires k < |bytes| && bytes[k] == '\n' && '\n' !in bytes[..k]
    ensures FindNewline(bytes) == k
  {
    if k > 0 {
      assert bytes[0] == bytes[..k][0];
      assert bytes[1..][..k - 1] == bytes[..k][1..];
      FirstNewline(bytes[1..], k - 1);
    }
  }

  lemma {:induction false} NoNewline(bytes: string)
    requires '\n' !in bytes
    ensures FindNewline(bytes) == |bytes|
  {
    if bytes != [] {
      NoNewline(bytes[1..]);
    }
  }
}
