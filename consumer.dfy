/**
 * The ingestion loop (internal/kafka/consumer.go): fetch a message, decode
 * it, validate it, save it through the service, then commit it or not, with
 * rejected payloads sent to a dead-letter topic. The broker, the JSON
 * decoder and every I/O outcome are inputs.
 */
module Consumer {
  import opened Wrappers
  import opened Models
  import opened Repository
  import opened Service

  datatype Message = Message(offset: nat, key: Bytes, value: Bytes)

  /** How the outside world answers while one fetched message is handled. */
  datatype Io = Io(saveFaults: TxStep -> bool, readBackFails: bool, commitOk: bool, dlqWriteOk: bool)

  /** One `FetchMessage` result: a message, cancellation, an expired deadline, or another error. */
  datatype Fetch = Fetched(msg: Message, io: Io) | Canceled | DeadlineExceeded | FetchFailed {
    predicate Stops() {
      Canceled? || DeadlineExceeded?
    }
  }

  /** The JSON decoder (a partial function), the email syntax, and whether a dead-letter writer exists. */
  datatype Env = Env(decode: Bytes -> Option<Order>, isEmail: EmailSyntax, hasDlqWriter: bool)

  /** What the decoder always does: fields tagged `json:"-"` stay empty. */
  ghost predicate DecoderLeavesKeysEmpty(env: Env) {
    forall b :: env.decode(b).Some? ==> SubKeysEmpty(env.decode(b).value)
  }

  /** A message whose payload decodes to a valid order. */
  predicate Accepted(m: Message, env: Env) {
    env.decode(m.value).Some? && ValidOrder(env.decode(m.value).value, env.isEmail)
  }

  /** The consumer group's commit log for the topic. */
  class Reader {
    var committed: seq<Message>

    constructor ()
      ensures committed == []
    {
      committed := [];
    }

    /** `CommitMessages`: the broker accepts the commit or reports an error. */
    method CommitMessages(m: Message, ok: bool) returns (err: bool)
      modifies this
      ensures err == !ok
      ensures committed == if ok then old(committed) + [m] else old(committed)
    {
      if ok {
        committed := committed + [m];
      }
      err := !ok;
    }
  }

  /** The dead-letter topic's writer. */
  class DlqWriter {
    var published: seq<Bytes>

    constructor ()
      ensures published == []
    {
      published := [];
    }

    method WriteMessages(data: Bytes, ok: bool) returns (err: bool)
      modifies this
      ensures err == !ok
      ensures published == if ok then old(published) + [data] else old(published)
    {
      if ok {
        published := published + [data];
      }
      err := !ok;
    }
  }

  /**
   * `sendToDLQ`: nothing happens without a writer, and a failed write is
   * only logged; the caller never sees an error.
   */
  method SendToDLQ(writer: DlqWriter?, data: Bytes, writeOk: bool)
    modifies writer
    ensures writer != null ==>
      writer.published == if writeOk then old(writer.published) + [data] else old(writer.published)
  {
    if writer == null {
      return;
    }
    var err := writer.WriteMessages(data, writeOk);
  }

  // ---------------------------------------------------------------------------
  // The loop as a function of its inputs
  // ---------------------------------------------------------------------------

  /** Everything the loop changes: the store, the cache, the commit log, the dead letters. */
  datatype Pipeline = Pipeline(db: Tables, cache: map<string, Order>, committed: seq<Message>, deadLetters: seq<Bytes>)

  function CommitIf(log: seq<Message>, m: Message, ok: bool): seq<Message> {
    if ok then log + [m] else log
  }

  /** One fetched message: undecodable, invalid, not saved, or saved. */
  function Handle(p: Pipeline, m: Message, io: Io, env: Env): Pipeline {
    match env.decode(m.value)
    case None =>
      p.(committed := CommitIf(p.committed, m, io.commitOk))
    case Some(o) =>
      if !ValidOrder(o, env.isEmail) then
        p.(deadLetters := if env.hasDlqWriter && io.dlqWriteOk then p.deadLetters + [m.value] else p.deadLetters,
           committed := CommitIf(p.committed, m, io.commitOk))
      else
        var s := Submit(p.db, p.cache, o, io.saveFaults, io.readBackFails);
        if s.err.Some? then p.(db := s.db, cache := s.cache)
        else p.(db := s.db, cache := s.cache, committed := CommitIf(p.committed, m, io.commitOk))
  }

  function Step(p: Pipeline, f: Fetch, env: Env): Pipeline {
    match f
    case Fetched(m, io) => Handle(p, m, io, env)
    case _ => p
  }

  /** The fetch results `fs`, handled in order. */
  function Apply(p: Pipeline, fs: seq<Fetch>, env: Env): Pipeline
    decreases |fs|
  {
    if fs == [] then p else Step(Apply(p, fs[..|fs| - 1], env), fs[|fs| - 1], env)
  }

  /** Where the loop stops: the first cancellation or expired deadline, or the end. */
  function StopIndex(fs: seq<Fetch>): (k: nat)
    ensures k <= |fs|
    ensures forall j | 0 <= j < k :: !fs[j].Stops()
    ensures k < |fs| ==> fs[k].Stops()
    decreases |fs|
  {
    if fs == [] || fs[0].Stops() then 0 else 1 + StopIndex(fs[1..])
  }

  function State(reader: Reader, dlq: DlqWriter?, svc: OrderService): Pipeline
    reads reader, dlq, svc, svc.repo, svc.cache
  {
    Pipeline(svc.repo.db, svc.cache.data, reader.committed, if dlq == null then [] else dlq.published)
  }

  /**
   * The consumer goroutine's loop over the fetch results. It returns the
   * index at which cancellation stopped it, and leaves the store, the cache,
   * the commit log and the dead letters as `Apply` says for the results
   * before that index.
   */
  method Consume(fetches: seq<Fetch>, reader: Reader, dlq: DlqWriter?, svc: OrderService, env: Env)
    returns (stop: nat)
    requires env.hasDlqWriter <==> dlq != null
    modifies reader, dlq, svc.repo, svc.cache
    ensures stop == StopIndex(fetches)
    ensures State(reader, dlq, svc) == Apply(old(State(reader, dlq, svc)), fetches[..stop], env)
  {
    ghost var start := State(reader, dlq, svc);
    var i := 0;
    while i < |fetches|
      invariant i <= |fetches|
      invariant forall j | 0 <= j < i :: !fetches[j].Stops()
      invariant State(reader, dlq, svc) == Apply(start, fetches[..i], env)
    {
      assert fetches[..i + 1][..i] == fetches[..i];
      match fetches[i] {
        case Canceled =>
          return i;
        case DeadlineExceeded =>
          return i;
        case FetchFailed =>
        case Fetched(msg, io) =>
          var decoded := env.decode(msg.value);
          if decoded.None? {
            var _ := reader.CommitMessages(msg, io.commitOk);
          } else if !ValidOrder(decoded.value, env.isEmail) {
            SendToDLQ(dlq, msg.value, io.dlqWriteOk);
            var _ := reader.CommitMessages(msg, io.commitOk);
          } else {
            var order := new OrderRef(decoded.value);
            var err := svc.SaveOrder(order, io.saveFaults, io.readBackFails);
            if err.None? {
              var _ := reader.CommitMessages(msg, io.commitOk);
            }
          }
      }
      i := i + 1;
    }
    assert fetches[..i] == fetches;
    return i;
  }

  // ---------------------------------------------------------------------------
  // What the loop guarantees
  // ---------------------------------------------------------------------------

  /** Saves only append to the orders table. */
  lemma SubmitGrowsOrders(db: Tables, cache: map<string, Order>, o: Order,
                          saveFaults: TxStep -> bool, readBackFails: bool)
    ensures db.orders <= Submit(db, cache, o, saveFaults, readBackFails).db.orders
  {
  }

  /**
   * A payload that does not decode is committed when the broker accepts the
   * commit, and nothing else changes: it is neither saved, cached nor
   * dead-lettered.
   */
  lemma HandleUndecodable(p: Pipeline, m: Message, io: Io, env: Env)
    requires env.decode(m.value).None?
    ensures var q := Handle(p, m, io, env);
      q.db == p.db && q.cache == p.cache && q.deadLetters == p.deadLetters
    ensures var q := Handle(p, m, io, env);
      q.committed == if io.commitOk then p.committed + [m] else p.committed
  {
  }

  /**
   * An order that fails validation is never saved or cached. Its payload is
   * dead-lettered exactly when a writer exists and the write succeeds, and
   * the message is committed when the broker accepts the commit.
   */
  lemma HandleInvalid(p: Pipeline, m: Message, io: Io, env: Env)
    requires env.decode(m.value).Some? && !ValidOrder(env.decode(m.value).value, env.isEmail)
    ensures var q := Handle(p, m, io, env);
      q.db == p.db && q.cache == p.cache
    ensures var q := Handle(p, m, io, env);
      q.deadLetters == if env.hasDlqWriter && io.dlqWriteOk then p.deadLetters + [m.value] else p.deadLetters
    ensures var q := Handle(p, m, io, env);
      q.committed == if io.commitOk then p.committed + [m] else p.committed
  {
  }

  /**
   * A valid order goes through the service's save and is never
   * dead-lettered; the message is committed exactly when the save succeeds
   * and the broker accepts the commit.
   */
  lemma HandleAccepted(p: Pipeline, m: Message, io: Io, env: Env)
    requires Accepted(m, env)
    ensures var q := Handle(p, m, io, env);
      var s := Submit(p.db, p.cache, env.decode(m.value).value, io.saveFaults, io.readBackFails);
      q.db == s.db && q.cache == s.cache && q.deadLetters == p.deadLetters
    ensures var q := Handle(p, m, io, env);
      var s := Submit(p.db, p.cache, env.decode(m.value).value, io.saveFaults, io.readBackFails);
      q.committed == if s.err.None? && io.commitOk then p.committed + [m] else p.committed
  {
  }

  /** `h` is the order row of a message among `fs` whose payload decodes to a valid order. */
  predicate RowOfAcceptedFetch(h: OrderRow, fs: seq<Fetch>, env: Env) {
    exists j | 0 <= j < |fs| ::
      fs[j].Fetched? && Accepted(fs[j].msg, env) && h == Header(env.decode(fs[j].msg.value).value)
  }

  /**
   * Only valid orders are saved: every order row the loop adds is the order
   * row of a fetched message whose payload decodes to a valid order.
   */
  lemma {:induction false} StoredOrdersAreAccepted(p: Pipeline, fs: seq<Fetch>, env: Env)
    ensures var q := Apply(p, fs, env);
      p.db.orders <= q.db.orders
    ensures var q := Apply(p, fs, env);
      forall k | |p.db.orders| <= k < |q.db.orders| :: RowOfAcceptedFetch(q.db.orders[k], fs, env)
    decreases |fs|
  {
    if fs != [] {
      var n := |fs| - 1;
      var fs' := fs[..n];
      StoredOrdersAreAccepted(p, fs', env);
      var r := Apply(p, fs', env);
      var q := Apply(p, fs, env);
      var f := fs[n];
      if f.Fetched? && Accepted(f.msg, env) {
        var o := env.decode(f.msg.value).value;
        var s := Submit(r.db, r.cache, o, f.io.saveFaults, f.io.readBackFails);
        assert q.db == s.db;
        assert s.db.orders == r.db.orders || s.db.orders == r.db.orders + [Header(o)];
      } else {
        assert q.db == r.db;
      }
      forall k | |p.db.orders| <= k < |q.db.orders|
        ensures RowOfAcceptedFetch(q.db.orders[k], fs, env)
      {
        if k < |r.db.orders| {
          assert RowOfAcceptedFetch(r.db.orders[k], fs', env);
          var j :| 0 <= j < |fs'| && fs'[j].Fetched? && Accepted(fs'[j].msg, env)
                   && r.db.orders[k] == Header(env.decode(fs'[j].msg.value).value);
          assert fs[j] == fs'[j];
        } else {
          assert fs[n].Fetched? && Accepted(fs[n].msg, env);
        }
      }
    }
  }

  /**
   * At-least-once safety: every message the loop commits either did not
   * decode, decoded to an invalid order, or had its order row durably stored.
   * No valid order is committed without a successful save.
   */
  lemma {:induction false} CommitRequiresSave(p: Pipeline, fs: seq<Fetch>, env: Env)
    ensures var q := Apply(p, fs, env);
      p.committed <= q.committed && p.db.orders <= q.db.orders
    ensures var q := Apply(p, fs, env);
      forall k | |p.committed| <= k < |q.committed| && Accepted(q.committed[k], env) ::
        Header(env.decode(q.committed[k].value).value) in q.db.orders
    decreases |fs|
  {
    if fs != [] {
      var fs' := fs[..|fs| - 1];
      CommitRequiresSave(p, fs', env);
      var r := Apply(p, fs', env);
      var q := Apply(p, fs, env);
      var f := fs[|fs| - 1];
      if f.Fetched? && Accepted(f.msg, env) {
        var o := env.decode(f.msg.value).value;
        SubmitGrowsOrders(r.db, r.cache, o, f.io.saveFaults, f.io.readBackFails);
        var s := Submit(r.db, r.cache, o, f.io.saveFaults, f.io.readBackFails);
        if s.err.None? {
          assert s.db.orders == r.db.orders + [Header(o)];
        }
        assert forall h | h in r.db.orders :: h in q.db.orders;
      }
    }
  }

  /**
   * Only payloads that decode to an invalid order are dead-lettered:
   * undecodable payloads and valid orders never are.
   */
  lemma {:induction false} DeadLettersAreRejected(p: Pipeline, fs: seq<Fetch>, env: Env)
    ensures var q := Apply(p, fs, env);
      p.deadLetters <= q.deadLetters
    ensures var q := Apply(p, fs, env);
      forall k | |p.deadLetters| <= k < |q.deadLetters| ::
        env.decode(q.deadLetters[k]).Some? && !ValidOrder(env.decode(q.deadLetters[k]).value, env.isEmail)
    decreases |fs|
  {
    if fs != [] {
      DeadLettersAreRejected(p, fs[..|fs| - 1], env);
    }
  }

  /** Every row of the store satisfies the validation rules of its record. */
  predicate StoreValid(t: Tables, isEmail: EmailSyntax) {
    && (forall k | 0 <= k < |t.orders| :: ValidHeader(t.orders[k]))
    && (forall k | 0 <= k < |t.payments| :: ValidPayment(t.payments[k]))
    && (forall k | 0 <= k < |t.items| :: ValidItem(t.items[k]))
    && (forall k | 0 <= k < |t.deliveries| :: ValidDelivery(t.deliveries[k], isEmail))
  }

  lemma SaveValidKeepsStoreValid(t: Tables, o: Order, isEmail: EmailSyntax)
    requires StoreValid(t, isEmail) && ValidOrder(o, isEmail)
    ensures StoreValid(SaveEffect(t, o), isEmail)
  {
  }

  /**
   * The loop keeps every stored row valid. Together with
   * `StoredOrdersAreAccepted` this says an invalid order never reaches the
   * store.
   */
  lemma {:induction false} IngestKeepsStoreValid(p: Pipeline, fs: seq<Fetch>, env: Env)
    requires StoreValid(p.db, env.isEmail)
    ensures StoreValid(Apply(p, fs, env).db, env.isEmail)
    decreases |fs|
  {
    if fs != [] {
      var fs' := fs[..|fs| - 1];
      IngestKeepsStoreValid(p, fs', env);
      var r := Apply(p, fs', env);
      var f := fs[|fs| - 1];
      if f.Fetched? && Accepted(f.msg, env) {
        SaveValidKeepsStoreValid(r.db, env.decode(f.msg.value).value, env.isEmail);
      }
    }
  }

  /** Every cached order has nil items. */
  predicate CachedWithoutItems(cache: map<string, Order>) {
    forall k | k in cache :: cache[k].items == Nil
  }

  /**
   * As written: ingestion from a store without keyed sub-rows never adds
   * one, and caches every order with nil items, because the read-back after
   * each save looks up the order's UID and the sub-rows were stored under
   * the empty UID. With `UnkeyedStoreUnreadable`, no ingested order can then
   * be read from the store.
   */
  lemma {:induction false} IngestedOrdersStayUnkeyed(p: Pipeline, fs: seq<Fetch>, env: Env)
    requires DecoderLeavesKeysEmpty(env)
    requires Unkeyed(p.db) && CachedWithoutItems(p.cache)
    ensures Unkeyed(Apply(p, fs, env).db) && CachedWithoutItems(Apply(p, fs, env).cache)
    decreases |fs|
  {
    if fs != [] {
      var fs' := fs[..|fs| - 1];
      IngestedOrdersStayUnkeyed(p, fs', env);
      var r := Apply(p, fs', env);
      var f := fs[|fs| - 1];
      if f.Fetched? && Accepted(f.msg, env) {
        var o := env.decode(f.msg.value).value;
        SaveDecodedKeepsUnkeyed(r.db, o);
        UnkeyedStoreUnreadable(SaveEffect(r.db, o), o.orderUID, ReadFaults(false, false));
      }
    }
  }

  /**
   * Redelivery after a failed transaction: the second delivery stores the
   * order once, commits the message once, and dead-letters nothing.
   */
  lemma RedeliveryAfterSaveFailure(p: Pipeline, m: Message, io1: Io, io2: Io, env: Env)
    requires Accepted(m, env)
    requires SaveError(|env.decode(m.value).value.items.Elements()|, io1.saveFaults).Some?
    requires SaveError(|env.decode(m.value).value.items.Elements()|, io2.saveFaults).None?
    requires !io2.readBackFails && io2.commitOk
    ensures var q := Apply(p, [Fetched(m, io1), Fetched(m, io2)], env);
      q.db == SaveEffect(p.db, env.decode(m.value).value)
      && q.committed == p.committed + [m] && q.deadLetters == p.deadLetters
  {
    var o := env.decode(m.value).value;
    var fs := [Fetched(m, io1), Fetched(m, io2)];
    assert fs[..1] == [Fetched(m, io1)];
    assert [Fetched(m, io1)][..0] == [];
    var r := Apply(p, fs[..1], env);
    assert r == Step(Apply(p, [], env), Fetched(m, io1), env);
    SubmitFailure(p.db, p.cache, o, io1.saveFaults, io1.readBackFails);
    assert r == p;
    SubmitSuccess(p.db, p.cache, o, io2.saveFaults, io2.readBackFails);
    assert Apply(p, fs, env) == Handle(r, m, io2, env);
  }

  /**
   * As written: when only the read-back fails, the rows are stored but the
   * message is not committed, so its redelivery stores the order row a
   * second time.
   */
  lemma RedeliveryAfterReadBackFailure(p: Pipeline, m: Message, io1: Io, io2: Io, env: Env)
    requires Accepted(m, env)
    requires SaveError(|env.decode(m.value).value.items.Elements()|, io1.saveFaults).None?
    requires io1.readBackFails
    requires SaveError(|env.decode(m.value).value.items.Elements()|, io2.saveFaults).None?
    requires !io2.readBackFails && io2.commitOk
    ensures var o := env.decode(m.value).value;
      var q := Apply(p, [Fetched(m, io1), Fetched(m, io2)], env);
      q.db == SaveEffect(SaveEffect(p.db, o), o)
      && multiset(q.db.orders)[Header(o)] == multiset(p.db.orders)[Header(o)] + 2
      && q.committed == p.committed + [m]
  {
    var o := env.decode(m.value).value;
    var fs := [Fetched(m, io1), Fetched(m, io2)];
    assert fs[..1] == [Fetched(m, io1)];
    assert [Fetched(m, io1)][..0] == [];
    var r := Apply(p, fs[..1], env);
    assert r == Step(Apply(p, [], env), Fetched(m, io1), env);
    SubmitFailure(p.db, p.cache, o, io1.saveFaults, io1.readBackFails);
    assert r.db == SaveEffect(p.db, o) && r.committed == p.committed;
    SubmitSuccess(r.db, r.cache, o, io2.saveFaults, io2.readBackFails);
    assert Apply(p, fs, env) == Handle(r, m, io2, env);
    ResaveDuplicatesRows(p.db, o);
  }
}
