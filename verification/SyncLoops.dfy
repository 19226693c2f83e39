/** The loops of one push and of one pull that nothing interrupts. */
module SyncLoops {
  import opened Directory
  import opened Sync

  /** What one peer's notification came to. */
  datatype Reply = NoConnection | NoAnswer | Ack(ok: bool)

  method NotifyPeer(reply: Reply) returns (ok: bool)
    ensures ok <==> reply == Ack(true)
  {
    match reply
    case NoConnection => ok := false;
    case NoAnswer => ok := false;
    case Ack(positive) => ok := positive;
  }

  /** Every peer is notified, whatever the others answered. */
  method NotifyAll(replies: seq<Reply>) returns (anyOk: bool, results: seq<bool>)
    ensures |results| == |replies|
    ensures forall i :: 0 <= i < |replies| ==> (results[i] <==> replies[i] == Ack(true))
    ensures anyOk <==> Ack(true) in replies
  {
    anyOk, results := false, [];
    while |results| < |replies|
      invariant |results| <= |replies|
      invariant forall i :: 0 <= i < |results| ==> (results[i] <==> replies[i] == Ack(true))
      invariant anyOk <==> Ack(true) in replies[..|results|]
      decreases |replies| - |results|
    {
      var i := |results|;
      assert replies[..i + 1] == replies[..i] + [replies[i]];
      var ok := NotifyPeer(replies[i]);
      if ok {
        anyOk := true;
      }
      results := results + [ok];
    }
    assert replies[..|results|] == replies;
  }

  // ----- a pull by itself -----

  function Rank(pull: Pull): (nat, nat) {
    match pull
    case Received => (4, 0)
    case Downloading => (3, 0)
    case Exporting(_, data, done) => (2, if done <= |data| then |data| - done else 0)
    case Landing(_, _) => (1, 0)
    case Replied(_) => (0, 0)
  }

  /** All steps of a pull, one after the other, with nothing in between; only the fetch may fail. */
  function Alone(files: Files, offer: Offer, pull: Pull, tmp: string, chunk: nat, fetched: bool): (Pull, Files)
    requires chunk > 0
    decreases Rank(pull).0, Rank(pull).1
  {
    if pull.Replied? then (pull, files)
    else
      var next := PullNext(files, offer, pull, tmp, chunk, pull.Downloading? && !fetched);
      Alone(next.1, offer, next.0, tmp, chunk, fetched)
  }

  class Receiver {
    var files: Files

    constructor (start: Files)
      ensures files == start
    {
      files := start;
    }

    /** Write the bytes to the export file, a chunk at a time. */
    method Export(tmp: string, data: Bytes, chunk: nat, ghost offer: Offer, ghost fetched: bool)
      requires chunk > 0
      modifies this
      ensures files == old(files)[tmp := data]
      ensures Alone(files, offer, Landing(tmp, data), tmp, chunk, fetched)
        == Alone(old(files)[tmp := []], offer, Exporting(tmp, data, 0), tmp, chunk, fetched)
    {
      files := files[tmp := []];
      var done := 0;
      while done < |data|
        invariant done <= |data|
        invariant files == old(files)[tmp := data[..done]]
        invariant Alone(files, offer, Exporting(tmp, data, done), tmp, chunk, fetched)
          == Alone(old(files)[tmp := []], offer, Exporting(tmp, data, 0), tmp, chunk, fetched)
      {
        done := Upto(data, done + chunk);
        files := files[tmp := data[..done]];
      }
      assert data[..done] == data;
    }

    /**
     * Check the name, fetch, export, rename. It succeeds exactly for a safe, nonempty name and a
     * fetched collection with a file, and then the offered name has the offered bytes; it does what
     * the steps of the protocol do.
     */
    method Pull(offer: Offer, tmp: string, chunk: nat, fetched: bool) returns (ok: bool)
      requires IsExport(tmp) && chunk > 0
      modifies this
      ensures ok <==> SafeName(offer.fileName) && offer.fileName != "" && fetched && Download(offer.hash).Some?
      ensures ok ==> files == (old(files) - {tmp})[offer.fileName := Download(offer.hash).value]
      ensures !ok ==> files - {tmp} == old(files) - {tmp}
      ensures (Replied(ok), files) == Alone(old(files), offer, Received, tmp, chunk, fetched)
    {
      if !SafeName(offer.fileName) {
        return false;
      }
      if !fetched || Download(offer.hash).None? {
        return false;
      }
      var data := Download(offer.hash).value;
      Export(tmp, data, chunk, offer, fetched);
      assert files - {tmp} == old(files) - {tmp};
      if offer.fileName == "" {
        return false;
      }
      files := (files - {tmp})[offer.fileName := files[tmp]];
      ok := true;
    }
  }
}
