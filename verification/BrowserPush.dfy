/**
 * The push channel end to end: frames are encrypted one by one into a byte stream that reaches the
 * client in arbitrary chunks; the client decrypts, cuts the stream at the length prefixes and applies.
 */
module BrowserPush {
  import opened Wrappers
  import opened Collections
  import opened Bytes
  import opened EnctypeXs
  import opened ServerEntries
  import opened Browser
  import opened BrowserTracking

  /** A frame that begins with its own length. */
  predicate Prefixed(frame: seq<u8>) {
    3 <= |frame| && FromBig16(frame[..2]) == |frame|
  }

  /** The whole frames at the start of a stream. */
  function SplitFrames(stream: seq<u8>): seq<seq<u8>>
    decreases |stream|
  {
    if |stream| < 2 then []
    else
      var size := FromBig16(stream[..2]);
      if size < 2 || |stream| < size then [] else [stream[..size]] + SplitFrames(stream[size..])
  }

  lemma {:induction false} SplitIsInverse(frames: seq<seq<u8>>)
    requires forall i :: 0 <= i < |frames| ==> Prefixed(frames[i])
    ensures SplitFrames(Flatten(frames)) == frames
    decreases |frames|
  {
    hide FromBig16;
    if frames != [] {
      var stream := Flatten(frames);
      var size := |frames[0]|;
      assert stream[..2] == frames[0][..2] && stream[..size] == frames[0] && stream[size..] == Flatten(frames[1..]);
      SplitIsInverse(frames[1..]);
    }
  }

  lemma FramesArePrefixed(payload: seq<u8>)
    requires 1 <= |payload| && |payload| + 2 < 0x1_0000
    ensures Prefixed(Frame(payload))
  {
    hide FromBig16, Big16;
    Big16ReadsBack(|payload| + 2);
    assert Frame(payload)[..2] == Big16(|payload| + 2);
  }

  lemma {:induction false} DeletesArePrefixed(deletes: seq<Address>)
    ensures forall i :: 0 <= i < |DeleteFrames(deletes)| ==> Prefixed(DeleteFrames(deletes)[i])
    decreases |deletes|
  {
    hide Prefixed;
    if deletes != [] {
      FramesArePrefixed([DELETE] + deletes[0].host + Big16(deletes[0].port));
      DeletesArePrefixed(deletes[1..]);
    }
  }

  lemma {:induction false} PushesArePrefixed(pushes: seq<Address>, entries: map<Address, seq<u8>>)
    requires (forall i :: 0 <= i < |pushes| ==> pushes[i] in entries) && PushFrames(pushes, entries).Some?
    ensures forall i :: 0 <= i < |PushFrames(pushes, entries).value| ==> Prefixed(PushFrames(pushes, entries).value[i])
    decreases |pushes|
  {
    hide Prefixed;
    if pushes != [] {
      FramesArePrefixed([PUSH] + entries[pushes[0]]);
      PushesArePrefixed(pushes[1..], entries);
    }
  }

  /** However the network chunks the encrypted frames, the client ends up with the server's listing. */
  lemma PushReachesClient(c: Settings, d: Deck, known: map<Address, seq<u8>>, current: map<Address, seq<u8>>,
                          deletes: seq<Address>, pushes: seq<Address>, chunks: seq<seq<u8>>)
    requires c.Valid() && d.Valid() && (forall a :: a in current ==> Encodes(c, a, current[a]))
    requires Orders(known, current, deletes, pushes) && RoundFrames(known, current, deletes, pushes).Some?
    requires Flatten(chunks) == Flatten(EncryptFrames(d, RoundFrames(known, current, deletes, pushes).value))
    ensures ApplyFrames(c, known, SplitFrames(Flatten(DecryptChunks(d, chunks)))) == current
  {
    hide Prefixed, SplitFrames, Encodes, Changed, EncryptFrames, DecryptChunks, Flatten, ApplyFrames;
    var frames := RoundFrames(known, current, deletes, pushes).value;
    InOrder(pushes, Changed(known, current));
    ChangedIsCurrent(known, current);
    DeletesArePrefixed(deletes);
    PushesArePrefixed(pushes, current);
    AnyChunkingDecrypts(d, frames, chunks);
    SplitIsInverse(frames);
    RoundSendsIff(known, current, deletes, pushes);
    FramesReachListing(c, known, current, deletes, pushes);
  }
}
