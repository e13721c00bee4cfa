/** The mailbox of an actor: the shared queue that senders append to, the local queue it is spliced
    into, and the cache that only the running actor touches. */
module Mailboxes {
  import opened Options

  /** A message is known by a number; its content is not looked at. */
  type Msg = nat

  datatype Mailbox = Mailbox(mail: seq<Msg>, local: seq<Msg>, cache: seq<Msg>) {
    /** Every message that was put and not yet taken, oldest first. */
    function Pending(): seq<Msg> {
      cache + local + mail
    }

    /** The part of it that has not been moved to the cache. */
    function Uncached(): seq<Msg> {
      local + mail
    }

    function Put(m: Msg): Mailbox {
      this.(mail := mail + [m])
    }

    /** `sync`: the shared queue goes to the front of the local one. */
    function Sync(): Mailbox {
      this.(mail := [], local := mail + local)
    }

    /** `get` after its `sync`, when that is due. */
    function Synced(): Mailbox {
      if local == [] then Sync() else this
    }

    function GetResult(): Option<Msg> {
      if Synced().local == [] then None else Some(Synced().local[0])
    }

    function GetRest(): Mailbox {
      var b := Synced();
      if b.local == [] then b else b.(local := b.local[1..])
    }

    function PopResult(): Option<Msg> {
      if cache == [] then None else Some(cache[0])
    }

    function PopRest(): Mailbox {
      if cache == [] then this else this.(cache := cache[1..])
    }

    function PushCache(m: Msg): Mailbox {
      this.(cache := cache + [m])
    }

    /** A get takes the oldest message outside the cache, or there is none. */
    lemma GetTakesOldest()
      ensures GetRest().cache == cache
      ensures GetResult().None? <==> Uncached() == []
      ensures GetResult().None? ==> GetRest().Uncached() == []
      ensures GetResult().Some? ==> Uncached() == [GetResult().value] + GetRest().Uncached()
    {
      if GetResult().Some? && local == [] {
        assert mail == [mail[0]] + mail[1..];
        assert GetRest().Uncached() == mail[1..];
      } else if GetResult().Some? {
        assert local == [local[0]] + local[1..];
      }
    }
  }

  const EMPTY := Mailbox([], [], [])

  /** `blocking_mail_queue`; `put` and `get` hold its mutex, so each is one step. */
  class BlockingMailQueue {
    var mailQueue: seq<Msg>
    var localQueue: seq<Msg>
    var cache: seq<Msg>

    function View(): Mailbox
      reads this
    {
      Mailbox(mailQueue, localQueue, cache)
    }

    constructor ()
      ensures View() == EMPTY
    {
      mailQueue, localQueue, cache := [], [], [];
    }

    method Put(m: Msg)
      modifies this
      ensures View() == old(View()).Put(m)
      ensures View().Pending() == old(View().Pending()) + [m]
    {
      mailQueue := mailQueue + [m];
    }

    method Sync()
      modifies this
      ensures View() == old(View()).Sync()
    {
      localQueue := mailQueue + localQueue;
      mailQueue := [];
    }

    method Get() returns (m: Option<Msg>)
      modifies this
      ensures m == old(View()).GetResult() && View() == old(View()).GetRest()
    {
      if localQueue == [] {
        Sync();
      }
      if localQueue != [] {
        m := Some(localQueue[0]);
        localQueue := localQueue[1..];
      } else {
        m := None;
      }
    }

    method PushToCache(m: Option<Msg>) returns (pushed: bool)
      modifies this
      ensures pushed <==> m.Some?
      ensures View() == if m.Some? then old(View()).PushCache(m.value) else old(View())
    {
      if m.Some? {
        cache := cache + [m.value];
        pushed := true;
      } else {
        pushed := false;
      }
    }

    method PopToCache() returns (m: Option<Msg>)
      modifies this
      ensures m == old(View()).PopResult() && View() == old(View()).PopRest()
    {
      if cache != [] {
        m := Some(cache[0]);
        cache := cache[1..];
      } else {
        m := None;
      }
    }
  }
}
