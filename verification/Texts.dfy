/** Error texts and their bound. The UTF-8 form of a text is a parameter. */
module Texts {
  import opened Wrappers
  import opened Bytes

  const MaxErrorBytes: nat := 4096

  datatype Utf8 = Utf8(pack: string -> seq<byte>, unpack: seq<byte> -> Option<string>)
  {
    ghost predicate Good() {
      && pack("") == []
      && (forall text :: unpack(pack(text)) == Some(text))
      && (forall bytes :: unpack(bytes).Some? ==> pack(unpack(bytes).value) == bytes)
    }
  }

  /** Characters are popped until the text fits. */
  function Shortened(u: Utf8, message: string): string {
    if |u.pack(message)| <= MaxErrorBytes || message == "" then message
    else Shortened(u, message[..|message| - 1])
  }

  /** The text kept is the first one that fits when counting down from the whole message. */
  lemma {:induction false} ShortenedIsLongestFit(u: Utf8, message: string)
    requires u.Good()
    ensures var kept := Shortened(u, message);
            && |kept| <= |message| && kept == message[..|kept|]
            && |u.pack(kept)| <= MaxErrorBytes
            && (forall n :: |kept| < n <= |message| ==> |u.pack(message[..n])| > MaxErrorBytes)
            && (kept == message <==> |u.pack(message)| <= MaxErrorBytes)
    decreases |message|
  {
    assert message[..|message|] == message;
    if |u.pack(message)| > MaxErrorBytes {
      var shorter := message[..|message| - 1];
      ShortenedIsLongestFit(u, shorter);
      assert forall n :: 0 <= n <= |shorter| ==> shorter[..n] == message[..n];
    }
  }
}
