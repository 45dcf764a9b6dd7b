/** The mock PSP's cache as it is: a map from keys to shared entry objects whose
    fields the owner fills in before it closes `ready`. */
module MockPsp {
  import opened Model
  import opened SingleFlight

  class CacheEntry {
    var httpCode: int
    var resp: Response
    var ready: bool        // the channel is closed

    constructor ()
      ensures httpCode == 200 && resp == NO_RESPONSE && !ready
    {
      httpCode, resp, ready := 200, NO_RESPONSE, false;
    }
  }

  class Server {
    var cache: map<Uuid, CacheEntry>
    var ledger: seq<Capture>
    var mail: seq<Msg>

    constructor ()
      ensures Valid() && cache == map[] && ledger == [] && mail == []
    {
      cache, ledger, mail := map[], [], [];
    }

    /** No two keys share an entry, a finished entry in the cache carries a
        definite outcome, and exactly the finished successes have been charged, once. */
    ghost predicate Valid()
      reads this, cache.Values
    {
      && (forall j, k :: j in cache && k in cache && j != k ==> cache[j] != cache[k])
      && (forall k :: k in cache ==> Settled(k))
      && (forall i, j :: 0 <= i < j < |ledger| && ledger[i].key.Some? ==> ledger[i].key != ledger[j].key)
      && (forall i :: 0 <= i < |ledger| && ledger[i].key.Some? ==>
            && ledger[i].key.value in cache && cache[ledger[i].key.value].ready
            && cache[ledger[i].key.value].resp.ref == Some(ledger[i].ref))
    }

    ghost predicate Settled(k: Uuid)
      requires k in cache
      reads this, cache[k]
    {
      && (cache[k].ready ==>
            && cache[k].httpCode == 200
            && (cache[k].resp.status.RespSucceeded? ==> cache[k].resp.ref.Some? && Taken(k, cache[k].resp.ref.value)))
      && (!cache[k].ready ==> cache[k].resp == NO_RESPONSE)
    }

    ghost predicate Taken(k: Uuid, ref: Uuid)
      reads this
    {
      exists i :: 0 <= i < |ledger| && ledger[i].key == Some(k) && ledger[i].ref == ref
    }

    method GetOrStart(key: Uuid) returns (entry: CacheEntry, created: bool)
      requires Valid()
      modifies this`cache
      ensures Valid()
      ensures created == (key !in old(cache))
      ensures key in cache && cache[key] == entry
      ensures if created then fresh(entry) && !entry.ready && entry.httpCode == 200 && entry.resp == NO_RESPONSE
                              && cache == old(cache)[key := entry]
              else cache == old(cache)
    {
      if key in cache {
        return cache[key], false;
      }
      entry := new CacheEntry();
      cache := cache[key := entry];
      created := true;
    }

    /** The request owns this entry and has yet to fill it in, or it has no key
        and there is no entry. */
    predicate Owned(q: ChargeReq, entry: CacheEntry?)
      reads this, entry
    {
      if entry == null then q.key.None?
      else q.key.Some? && q.key.value in cache && cache[q.key.value] == entry && !entry.ready
    }

    /** completeCharge, `ref` and `event` being new identifiers.  The entry, if
        any, ends up closed with what its token decides; unless that is a definite
        outcome the key is free again; money is taken once, for a success; nobody
        else's entry changes. */
    method CompleteCharge(q: ChargeReq, entry: CacheEntry?, ref: Uuid, event: Uuid) returns (code: int, resp: Response)
      requires Valid() && Owned(q, entry)
      modifies this, if entry == null then {} else {entry}
      ensures Valid()
      ensures code == HttpCode(q.token) && resp == Body(q.token, ref)
      ensures entry != null ==> entry.ready && entry.httpCode == code && (code < 400 ==> entry.resp == resp)
      ensures cache == if code == 200 || entry == null then old(cache) else old(cache) - {q.key.value}
      ensures ledger == if Charges(q.token) then old(ledger) + [CaptureOf(q, ref)] else old(ledger)
      ensures mail == if Charges(q.token) then old(mail) + [NoticeOf(q, ref, event)] else old(mail)
    {
      if Charges(q.token) || Declines(q.token) {
        code, resp := 200, Body(q.token, ref);
        Finish(q, entry, code, resp, ref, event);
      } else {
        code, resp := HttpCode(q.token), NO_RESPONSE;
        FailUncached(q, entry, code);
      }
    }

    method Finish(q: ChargeReq, entry: CacheEntry?, code: int, resp: Response, ref: Uuid, event: Uuid)
      requires Valid() && Owned(q, entry)
      requires code == 200 && resp == Body(q.token, ref) && (Charges(q.token) || Declines(q.token))
      modifies this`ledger, this`mail, if entry == null then {} else {entry}
      ensures Valid()
      ensures entry != null ==> entry.ready && entry.httpCode == code && entry.resp == resp
      ensures ledger == if Charges(q.token) then old(ledger) + [CaptureOf(q, ref)] else old(ledger)
      ensures mail == if Charges(q.token) then old(mail) + [NoticeOf(q, ref, event)] else old(mail)
    {
      if entry != null {
        entry.httpCode := code;
        entry.resp := resp;
        entry.ready := true;
      }
      if resp.status.RespSucceeded? {
        ledger := ledger + [CaptureOf(q, ref)];
        assert ledger[|ledger| - 1].key == q.key;
        mail := mail + [NoticeOf(q, ref, event)];
      }
      forall k | k in cache
        ensures Settled(k)
      {
        if cache[k] == entry {
          assert k == q.key.value;
          assert resp.status.RespSucceeded? ==> ledger[|ledger| - 1].key == Some(k) && ledger[|ledger| - 1].ref == ref;
        } else if cache[k].ready && cache[k].resp.status.RespSucceeded? {
          assert old(Settled(k));
          var i :| 0 <= i < |old(ledger)| && old(ledger)[i].key == Some(k)
                   && old(ledger)[i].ref == cache[k].resp.ref.value;
          assert ledger[i] == old(ledger)[i];
        }
      }
    }

    /** Without an entry there is nothing to do. */
    method FailUncached(q: ChargeReq, entry: CacheEntry?, code: int)
      requires Valid() && Owned(q, entry)
      modifies this`cache, if entry == null then {} else {entry}
      ensures Valid()
      ensures cache == if entry == null then old(cache) else old(cache) - {q.key.value}
      ensures entry != null ==> entry.ready && entry.httpCode == code && entry.resp == old(entry.resp)
    {
      if entry == null {
        return;
      }
      entry.httpCode := code;
      cache := cache - {q.key.value};
      entry.ready := true;
      forall k | k in cache
        ensures Settled(k)
      {
        assert k in old(cache) && k != q.key.value && old(cache)[k] != old(cache)[q.key.value];
        assert old(Settled(k));
      }
    }

    /** What a request that found the entry answers once it is ready: while the
        entry is in the cache, its definite outcome, for which a success has been
        charged under the reference it shows. */
    method AnswerWaiting(entry: CacheEntry) returns (code: int, resp: Response)
      requires Valid() && entry.ready
      ensures forall k :: k in cache && cache[k] == entry ==>
                && code == 200 && resp == entry.resp
                && (resp.status.RespSucceeded? ==> resp.ref.Some? && Taken(k, resp.ref.value))
      ensures code >= 500 ==> resp == NO_RESPONSE
      ensures code == entry.httpCode && (code < 500 ==> resp == entry.resp)
    {
      code := entry.httpCode;
      resp := if code >= 500 then NO_RESPONSE else entry.resp;
      assert forall k :: k in cache && cache[k] == entry ==> Settled(k);
    }

    /** handleCharge.  A key whose outcome is definite always gets that outcome,
        and no more money is taken; a request whose key is being charged waits for
        that charge; any other charge decides by its own token. */
    method HandleCharge(q: ChargeReq, ref: Uuid, event: Uuid) returns (r: Handled)
      requires Valid()
      modifies this
      ensures Valid()
      ensures forall k :: k in old(cache) ==> k in cache && cache[k] == old(cache)[k]
      ensures var known := q.key.Some? && q.key.value in old(cache);
              && (q.token.TokEmpty? ==> r == Answered(400, NO_RESPONSE) && cache == old(cache))
              && (!q.token.TokEmpty? && known ==>
                    r == if old(cache)[q.key.value].ready then Answered(200, old(cache)[q.key.value].resp)
                         else Blocks(old(cache)[q.key.value]))
              && (!q.token.TokEmpty? && !known ==> r == Answered(HttpCode(q.token), Body(q.token, ref)))
              && (!known && q.key.Some? && r.Answered? && r.code == 200 ==>
                    q.key.value in cache && cache[q.key.value].ready && cache[q.key.value].resp == r.resp)
              && ledger == (if known || !Charges(q.token) then old(ledger) else old(ledger) + [CaptureOf(q, ref)])
              && mail == (if known || !Charges(q.token) then old(mail) else old(mail) + [NoticeOf(q, ref, event)])
    {
      if q.token.TokEmpty? {
        return Answered(400, NO_RESPONSE);
      }
      var code, resp;
      if q.key.Some? {
        var entry, created := GetOrStart(q.key.value);
        if !created {
          if !entry.ready {
            return Blocks(entry);
          }
          code, resp := AnswerWaiting(entry);
          return Answered(code, resp);
        }
        code, resp := CompleteCharge(q, entry, ref, event);
      } else {
        code, resp := CompleteCharge(q, null, ref, event);
      }
      r := Answered(code, resp);
    }
  }

  /** A request is answered, or waits for the entry's channel and is answered from it then. */
  datatype Handled = Answered(code: int, resp: Response) | Blocks(entry: CacheEntry)
}
