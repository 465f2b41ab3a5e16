/** The life of an upload row, as far as its content identifiers go: how it comes
    to be, and everything that writes to it afterwards. */
module Lifecycle {
  import opened Base

  datatype Status = Queued | Processing | Completed | AlreadyStored | Failed

  /** `staged` says that the row still names an uploaded source file; `None` is a
      NULL column. */
  datatype Upload = Upload(public: bool, status: Status, staged: bool, dataMap: Option<string>, address: Option<string>)

  /** A row is created by an upload, or imported from an export of another
      instance, with whatever that export says. */
  datatype Birth =
    | Created(public: bool)
    | Imported(public: bool, status: Status, dataMap: string, address: string)

  /** Writes by the worker, the retry endpoints and the publish migration.  `Finish`
      carries what the daemon's finalize answered. */
  datatype Write =
    | Dequeue
    | Requeue
    | Finish(dataMap: string, address: string, deduplicated: bool)
    | Fail(keepsSource: bool)
    | Retry
    | Publish(address: string)

  function NullIfEmpty(s: string): Option<string> { if s == "" then None else Some(s) }

  function Born(b: Birth): Upload {
    match b
    case Created(public) => Upload(public, Queued, true, None, None)
    case Imported(public, status, dataMap, address) =>
      Upload(public, status, false, NullIfEmpty(dataMap), NullIfEmpty(address))
  }

  /** A worker finishes an upload it is processing: a public one needs an address
      from the daemon, a private one gets whatever data map the daemon sent. */
  function Finished(u: Upload, dataMap: string, address: string, deduplicated: bool): Upload {
    var done := if deduplicated then AlreadyStored else Completed;
    if u.status != Processing then u
    else if !u.staged || (u.public && address == "") then u.(status := Failed)
    else if u.public then u.(status := done, staged := false, address := Some(address))
    else u.(status := done, staged := false, dataMap := Some(dataMap))
  }

  /** The migration publishes private rows with a usable data map and no address. */
  function Published(u: Upload, address: string): Upload {
    if !u.public && u.address.None? && u.dataMap.Some? && u.dataMap.value != "" then
      u.(public := true, address := Some(address))
    else u
  }

  function Written(u: Upload, w: Write): Upload {
    match w
    case Dequeue => if u.status == Queued then u.(status := Processing) else u
    case Requeue => if u.status == Processing then u.(status := Queued) else u
    case Finish(dataMap, address, deduplicated) => Finished(u, dataMap, address, deduplicated)
    case Fail(keepsSource) => u.(status := Failed, staged := u.staged && keepsSource)
    case Retry => if u.status == Failed then u.(status := Queued) else u
    case Publish(address) => Published(u, address)
  }

  function Lived(b: Birth, writes: seq<Write>): Upload {
    if writes == [] then Born(b) else Written(Lived(b, writes[..|writes| - 1]), writes[|writes| - 1])
  }

  /** The statuses in which a row may be deleted. */
  predicate Deletable(u: Upload) { Downloadable(u) || u.status == Failed }

  predicate Downloadable(u: Upload) { u.status == Completed || u.status == AlreadyStored }

  /** Identifiers are written once, while the source is still there, and an empty
      data map never comes beside an address. */
  predicate WellWritten(u: Upload) {
    && (u.staged ==> u.dataMap.None? && u.address.None? && !Downloadable(u))
    && (u.dataMap == Some("") ==> u.address.None? && !u.public)
  }

  lemma WriteKeepsWellWritten(u: Upload, w: Write)
    requires WellWritten(u)
    ensures WellWritten(Written(u, w))
  {
  }

  /** A row whose source is gone keeps its data map, and its address unless it is
      published for the first time. */
  lemma WriteKeepsIdentifiers(u: Upload, w: Write)
    requires WellWritten(u) && !u.staged
    ensures var v := Written(u, w);
            && !v.staged && v.dataMap == u.dataMap
            && (v.address == u.address || (u.address.None? && u.dataMap.Some? && u.dataMap.value != ""))
  {
  }

  /** Whatever is written to a row, in whatever order, however often it is failed,
      requeued and retried: an empty data map never comes beside an address. */
  lemma {:induction false} LivesWellWritten(b: Birth, writes: seq<Write>)
    ensures WellWritten(Lived(b, writes))
  {
    if writes != [] {
      LivesWellWritten(b, writes[..|writes| - 1]);
      WriteKeepsWellWritten(Lived(b, writes[..|writes| - 1]), writes[|writes| - 1]);
    }
  }

  /** An upload created here that is ready for download has what is needed to fetch
      it: a data map if it is private, an address if it is public. */
  lemma {:induction false} CreatedHasContent(public: bool, writes: seq<Write>)
    ensures var u := Lived(Created(public), writes);
            Downloadable(u) ==> if u.public then u.address.Some? else u.dataMap.Some?
  {
    if writes != [] {
      CreatedHasContent(public, writes[..|writes| - 1]);
    }
  }

  /** Once a row has an identifier, its data map never changes again, and its
      address only by being published for the first time. */
  lemma {:induction false} IdentifiersAreFinal(b: Birth, before: seq<Write>, after: seq<Write>)
    requires var u := Lived(b, before); u.dataMap.Some? || u.address.Some?
    ensures var u, v := Lived(b, before), Lived(b, before + after);
            && v.dataMap == u.dataMap
            && (v.address == u.address || (u.address.None? && u.dataMap.Some? && u.dataMap.value != ""))
  {
    LivesWellWritten(b, before);
    if after == [] {
      assert before + after == before;
    } else {
      IdentifiersAreFinal(b, before, after[..|after| - 1]);
      LivesWellWritten(b, before + after[..|after| - 1]);
      var all := before + after;
      assert all[..|all| - 1] == before + after[..|after| - 1];
    }
  }

  lemma LivedOn(b: Birth, writes: seq<Write>, w: Write)
    ensures Lived(b, writes + [w]) == Written(Lived(b, writes), w)
  {
    assert (writes + [w])[..|writes + [w]| - 1] == writes;
  }

  lemma FinishAfterRetry(u: Upload, dataMap: string, address: string, deduplicated: bool)
    requires WellWritten(u) && u.staged && address != ""
    ensures var v := Written(Written(Written(u, Retry), Dequeue), Finish(dataMap, address, deduplicated));
            && v.status == (if deduplicated then AlreadyStored else Completed) && v.public == u.public && !v.staged
            && v.dataMap == (if u.public then None else Some(dataMap))
            && v.address == (if u.public then Some(address) else None)
  {
  }

  /** A staged upload, wherever its failures, requeueings and retries have taken it,
      can still be finished, and then has what the daemon answered. */
  lemma StagedCanFinish(b: Birth, writes: seq<Write>, dataMap: string, address: string, deduplicated: bool)
    returns (more: seq<Write>)
    requires Lived(b, writes).staged && address != ""
    ensures var u, v := Lived(b, writes), Lived(b, writes + more);
            && v.status == (if deduplicated then AlreadyStored else Completed) && v.public == u.public && !v.staged
            && v.dataMap == (if u.public then None else Some(dataMap))
            && v.address == (if u.public then Some(address) else None)
  {
    LivesWellWritten(b, writes);
    var finish := Finish(dataMap, address, deduplicated);
    FinishAfterRetry(Lived(b, writes), dataMap, address, deduplicated);
    hide Lived, Written, WellWritten;
    var retried, dequeued := writes + [Retry], writes + [Retry] + [Dequeue];
    LivedOn(b, writes, Retry);
    LivedOn(b, retried, Dequeue);
    LivedOn(b, dequeued, finish);
    more := [Retry, Dequeue, finish];
    assert writes + more == dequeued + [finish];
  }

  /** One that is neither staged nor finished never will be, whatever is written. */
  lemma {:induction false} UnstagedIsLost(b: Birth, writes: seq<Write>, more: seq<Write>)
    requires var u := Lived(b, writes); !u.staged && !Downloadable(u)
    ensures var v := Lived(b, writes + more); !v.staged && !Downloadable(v)
  {
    if more == [] {
      assert writes + more == writes;
    } else {
      var n := |more| - 1;
      UnstagedIsLost(b, writes, more[..n]);
      LivedOn(b, writes + more[..n], more[n]);
      assert writes + more == writes + more[..n] + [more[n]];
    }
  }

  /** So a row can ever be downloaded again if and only if it can be now or still has
      its source. */
  lemma FinishableIff(b: Birth, writes: seq<Write>)
    ensures (exists more: seq<Write> :: Downloadable(Lived(b, writes + more))) <==>
            var u := Lived(b, writes); u.staged || Downloadable(u)
  {
    var u := Lived(b, writes);
    if u.staged {
      var more := StagedCanFinish(b, writes, "", "a", false);
      assert Downloadable(Lived(b, writes + more));
    } else if Downloadable(u) {
      assert writes + [] == writes;
    } else {
      forall more: seq<Write> ensures !Downloadable(Lived(b, writes + more)) {
        UnstagedIsLost(b, writes, more);
      }
    }
  }

  /** A failure leaves a row that can be downloaded later if and only if it keeps a
      source that is still there. */
  lemma FailureIff(b: Birth, writes: seq<Write>, keepsSource: bool)
    ensures var failed := writes + [Fail(keepsSource)];
            (exists more: seq<Write> :: Downloadable(Lived(b, failed + more))) <==>
            keepsSource && Lived(b, writes).staged
  {
    LivedOn(b, writes, Fail(keepsSource));
    FinishableIff(b, writes + [Fail(keepsSource)]);
    hide Lived;
  }

  /** Publishing a private row with a usable data map makes it public under the
      address it was published at, and so it stays, data map and all, whatever is
      written afterwards. */
  lemma {:induction false} PublicationIsFinal(b: Birth, before: seq<Write>, address: string, after: seq<Write>)
    requires var u := Lived(b, before);
             !u.public && u.address.None? && u.dataMap.Some? && u.dataMap.value != ""
    ensures var u, v := Lived(b, before), Lived(b, before + [Publish(address)] + after);
            v.public && v.address == Some(address) && v.dataMap == u.dataMap
  {
    LivesWellWritten(b, before);
    var published := before + [Publish(address)];
    LivedOn(b, before, Publish(address));
    if after == [] {
      assert published + after == published;
    } else {
      var n := |after| - 1;
      PublicationIsFinal(b, before, address, after[..n]);
      LivesWellWritten(b, published + after[..n]);
      LivedOn(b, published + after[..n], after[n]);
      assert published + after == published + after[..n] + [after[n]];
    }
  }
}
