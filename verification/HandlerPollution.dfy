/** What consistent rows are for: a whole run, from an empty cache, in which a row
    that no writer leaves, put into the table by other hands, puts its own bytes
    in front of another row's reader. */
module HandlerPollution {
  import opened Base
  import opened CacheStore
  import opened Flights
  import opened Gates
  import opened Handlers
  import opened HandlerRuns
  import Content = HandlerContent
  import Lives = Lifecycle

  /** A public row that is ready for download. */
  function Ready(uuid: nat, dataMap: Option<string>, address: Option<string>): Record {
    Record(uuid, Lives.Upload(true, Lives.Completed, false, dataMap, address))
  }

  /** An empty, ready cache and two rows that share the address `addr`; row 0
      also has a data map that is empty without being NULL. */
  function TwoRows(addr: string): State {
    State(map[0 := Ready(0, Some(""), Some(addr)), 1 := Ready(1, None, Some(addr))], {}, {0, 1},
          EmptyStore(), NoFlight(), GateState(0, 0), 1, 1, map[], [], map[], {}, {})
  }

  /** No upload, import, retry or publication leaves such a row. */
  lemma NoWriterLeavesIt(addr: string, birth: Lives.Birth, writes: seq<Lives.Write>)
    requires addr != ""
    ensures Lives.Lived(birth, writes) != TwoRows(addr).rows[0].upload
  {
    Lives.LivesWellWritten(birth, writes);
  }

  /** Row 0's download caches what it fetched by the empty identifier under the key
      of the address. */
  lemma FirstFills(env: Env, addr: string)
    requires Content.SoundEnv(env) && addr != ""
    ensures var s, key := TwoRows(addr), env.digest(addr);
            KeyValid(key) && Reachable(env, s, DoneState(s, 0, RowAt(s.rows, 0), key, env.fetch("")), SmoothRun)
  {
    var s, key := TwoRows(addr), env.digest(addr);
    var row, body := RowAt(s.rows, 0), env.fetch("");
    assert KeyValid(key);
    assert DownloadKey(env, row) == key && FetchId(row) == Some("") && row.uuid == 0;
    assert LiveKey(env, s.rows, key) && s.rows[0].uuid == 0;
    assert Fresh(env, s, 0, 0, key);
    hide KeyValid, DownloadKey, Fresh, Content.SoundEnv, Reachable;
    DownloadIsReady(env, s, SmoothRun, 0, 0, key);
    assert UuidThere(s.rows, 0);
    hide TwoRows, LiveKey, RowAt, UuidThere;
    ReadyFinishes(env, s, SmoothRun, s, 0, row, key, body);
  }

  /** From an empty cache, with nothing failing, a network that answers for the
      empty identifier, and a table edited by other hands: row 0 has an empty,
      non-NULL data map and the address of row 1; after one download of row 0, a
      download of row 1 ends by serving what the network holds under the empty
      identifier. */
  lemma WrongBytesServed(env: Env, addr: string)
    requires Content.SoundEnv(env) && addr != "" && env.fetch("") != env.fetch(addr)
    ensures exists s' :: Reachable(env, TwoRows(addr), s', SmoothRun) && 1 in s'.reqs
                         && s'.reqs[1].pc == Done(Served(env.fetch("")))
    ensures !Content.Right(env, RowAt(TwoRows(addr).rows, 1), env.fetch(""))
  {
    var s, key := TwoRows(addr), env.digest(addr);
    var body := env.fetch("");
    FirstFills(env, addr);
    var s1 := DoneState(s, 0, RowAt(s.rows, 0), key, body);
    assert s1.rows == s.rows && s1.leaked == {} && 1 !in s1.reqs;
    assert DownloadKey(env, RowAt(s.rows, 1)) == key;
    hide KeyValid, DownloadKey, Content.SoundEnv, Reachable, CachedStore;
    HitServes(env, s, SmoothRun, s1, 1, 1, key, body);
    var s2 := At(s1, CachedStore(key, body), s1.flight, s1.gate, 1, DoneReq(RowAt(s.rows, 1), key, body));
    assert s2.reqs[1].pc == Done(Served(body));
  }
}
