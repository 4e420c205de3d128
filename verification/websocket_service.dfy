/**
 * The websocket service's listener registry: one callback list per event kind, a cache of
 * the latest payload of each kind, message dispatch, and the outgoing `select_date` message.
 * Callbacks are identified by integer ids; what a callback does lives with its owner.
 */
module WebsocketService {
  import opened Wrappers

  /** The event kinds the registry has a list for. */
  const Kinds: set<string> := {"analysis_history", "new_analysis_point", "pending_candle",
                               "pending_metrics", "server_default_date", "error", "open", "close"}

  type Callback = int

  /** A decoded server message: its `type` (None when absent or not a string), its own
      `data` property when it has one, and the message itself as a payload. */
  datatype Message<P> = Message(kind: Option<string>, data: Option<P>, whole: P)

  /** A string is truthy when it is not empty. */
  predicate Truthy(s: Option<string>) {
    s.Some? && s.value != ""
  }

  /** The payload handed to listeners: the `data` property when the message has one, the
      whole message otherwise. */
  function PayloadOf<P>(m: Message<P>): (p: P)
    ensures m.data.Some? ==> p == m.data.value
    ensures m.data.None? ==> p == m.whole
  {
    if m.data.Some? then m.data.value else m.whole
  }

  // ---------------------------------------------------------------------------
  // `Array.indexOf` and `splice(index, 1)`

  /** The list without its first occurrence of `c`. */
  function RemoveFirst(s: seq<Callback>, c: Callback): (r: seq<Callback>)
    ensures c !in s ==> r == s
    ensures c in s ==> |r| == |s| - 1
  {
    if |s| == 0 then []
    else if s[0] == c then
      assert s == [s[0]] + s[1..];
      s[1..]
    else
      assert s == [s[0]] + s[1..];
      [s[0]] + RemoveFirst(s[1..], c)
  }

  /** Removing the first occurrence takes away exactly one copy of `c`, and nothing when
      there is none. */
  lemma {:induction false} RemoveFirstMultiset(s: seq<Callback>, c: Callback)
    ensures multiset(RemoveFirst(s, c)) == multiset(s) - multiset{c}
  {
    if |s| > 0 {
      assert s == [s[0]] + s[1..];
      RemoveFirstMultiset(s[1..], c);
    }
  }

  /** Removing the first occurrence splices out exactly the element at its index. */
  lemma {:induction false} RemoveFirstSplice(s: seq<Callback>, c: Callback, i: int)
    requires 0 <= i < |s| && s[i] == c && c !in s[..i]
    ensures RemoveFirst(s, c) == s[..i] + s[i + 1..]
  {
    if i == 0 {
      assert s[..0] + s[1..] == s[1..];
    } else {
      var t := s[1..];
      assert s[0] != c by { assert s[0] == s[..i][0]; }
      assert t[..i - 1] == s[..i][1..];
      RemoveFirstSplice(t, c, i - 1);
      assert s[..i] == [s[0]] + t[..i - 1];
      assert s[i + 1..] == t[i..];
    }
  }

  /** Appending a callback and then removing its first occurrence gives back the list
      when the callback was not on it; when it was, the earlier copy goes and the new one
      stays at the end. */
  lemma {:induction false} RemoveFirstAfterAppend(s: seq<Callback>, c: Callback)
    ensures c !in s ==> RemoveFirst(s + [c], c) == s
    ensures c in s ==> RemoveFirst(s + [c], c) == RemoveFirst(s, c) + [c]
  {
    if |s| > 0 {
      RemoveFirstAfterAppend(s[1..], c);
      assert (s + [c])[1..] == s[1..] + [c];
      assert c in s <==> s[0] == c || c in s[1..] by { assert s == [s[0]] + s[1..]; }
    }
  }

  /** The index of the first occurrence of `c`, or -1. */
  method IndexOf(s: seq<Callback>, c: Callback) returns (index: int)
    ensures -1 <= index < |s|
    ensures index == -1 <==> c !in s
    ensures index >= 0 ==> s[index] == c && c !in s[..index]
  {
    var i := 0;
    while i < |s|
      invariant 0 <= i <= |s|
      invariant c !in s[..i]
    {
      if s[i] == c {
        return i;
      }
      assert s[..i + 1] == s[..i] + [s[i]];
      i := i + 1;
    }
    assert s[..i] == s;
    return -1;
  }

  // ---------------------------------------------------------------------------
  // `list.forEach(cb => cb(payload))` inside a `try`

  /** The callbacks called by `forEach` when the ones in `throwing` throw: every one in order
      up to and including the first that throws, whose exception ends the loop. */
  function CalledUntilThrow(list: seq<Callback>, throwing: set<Callback>): seq<Callback>
  {
    if |list| == 0 then []
    else if list[0] in throwing then [list[0]]
    else [list[0]] + CalledUntilThrow(list[1..], throwing)
  }

  /** The callbacks called are a prefix of the list; none but the last of them threw; the
      call stops short of the end only at a callback that threw; and when none throws every
      callback is called. */
  lemma {:induction false} CalledUntilThrowSpec(list: seq<Callback>, throwing: set<Callback>)
    ensures CalledUntilThrow(list, throwing) <= list
    ensures forall k | 0 <= k < |CalledUntilThrow(list, throwing)| - 1 ::
              CalledUntilThrow(list, throwing)[k] !in throwing
    ensures |CalledUntilThrow(list, throwing)| < |list| ==>
              |CalledUntilThrow(list, throwing)| > 0 &&
              CalledUntilThrow(list, throwing)[|CalledUntilThrow(list, throwing)| - 1] in throwing
    ensures (forall k | 0 <= k < |list| :: list[k] !in throwing) ==> CalledUntilThrow(list, throwing) == list
  {
    if |list| > 0 && list[0] !in throwing {
      var rest := CalledUntilThrow(list[1..], throwing);
      CalledUntilThrowSpec(list[1..], throwing);
      assert list == [list[0]] + list[1..];
      assert forall k | 1 <= k < |list| :: list[k] == list[1..][k - 1];
      assert forall k | 1 <= k < |rest| + 1 :: ([list[0]] + rest)[k] == rest[k - 1];
    }
  }

  /** Calls the list's callbacks in order, stopping after the first one that throws. */
  method Deliver(list: seq<Callback>, throwing: set<Callback>) returns (called: seq<Callback>)
    ensures called == CalledUntilThrow(list, throwing)
  {
    called := [];
    var i := 0;
    while i < |list|
      invariant 0 <= i <= |list|
      invariant CalledUntilThrow(list, throwing) == called + CalledUntilThrow(list[i..], throwing)
    {
      var rest := list[i..];
      assert rest[0] == list[i] && rest[1..] == list[i + 1..];
      called := called + [list[i]];
      if list[i] in throwing {
        return;
      }
      i := i + 1;
    }
  }

  // ---------------------------------------------------------------------------
  // The registry

  /** The `listeners` object and the `latestByType` cache. */
  class Registry<P> {
    var listeners: map<string, seq<Callback>>
    var latest: map<string, P>

    /** Lists exist for exactly the known kinds, and only those kinds get cached. */
    predicate Valid()
      reads this
    {
      listeners.Keys == Kinds && latest.Keys <= Kinds
    }

    /** At load: one empty list per kind and an empty cache. */
    constructor ()
      ensures Valid()
      ensures forall k | k in Kinds :: listeners[k] == []
      ensures latest == map[]
    {
      listeners := map k | k in Kinds :: [];
      latest := map[];
    }

    /** `on(event, callback)`: for a known kind the callback goes at the end of its list
        and, when a payload of that kind is cached, is called once with it (an exception
        from that call is swallowed); an unknown kind changes nothing and calls nothing.
        `replayed` is the payload the callback was called with. */
    method On(kind: string, cb: Callback) returns (replayed: Option<P>)
      requires Valid()
      modifies this
      ensures Valid()
      ensures latest == old(latest)
      ensures kind !in Kinds ==> listeners == old(listeners) && replayed == None
      ensures kind in Kinds ==> listeners == old(listeners)[kind := old(listeners)[kind] + [cb]]
      ensures kind in Kinds && kind in latest ==> replayed == Some(latest[kind])
      ensures kind in Kinds && kind !in latest ==> replayed == None
    {
      replayed := None;
      if kind in listeners {
        listeners := listeners[kind := listeners[kind] + [cb]];
        if kind in latest {
          replayed := Some(latest[kind]);
        }
      }
    }

    /** `off(event, callback)`: removes the first occurrence of the callback from the
        kind's list; an absent callback or an unknown kind leaves every list as it was. */
    method Off(kind: string, cb: Callback)
      requires Valid()
      modifies this
      ensures Valid()
      ensures latest == old(latest)
      ensures kind !in Kinds ==> listeners == old(listeners)
      ensures kind in Kinds ==> listeners == old(listeners)[kind := RemoveFirst(old(listeners)[kind], cb)]
    {
      if kind in listeners {
        var list := listeners[kind];
        var index := IndexOf(list, cb);
        if index > -1 {
          RemoveFirstSplice(list, cb, index);
          listeners := listeners[kind := list[..index] + list[index + 1..]];
        }
      }
    }

    /** `socket.onmessage` for one decoded message (`None`: the text did not parse, or
        parsed to a falsy value). A message without a truthy `type`, or whose type has no
        list, changes nothing. Otherwise its payload becomes the cached payload of its kind
        and the kind's callbacks are called in registration order until one throws;
        `called` lists the callbacks called. */
    method OnMessage(parsed: Option<Message<P>>, throwing: set<Callback>) returns (called: seq<Callback>)
      requires Valid()
      modifies this
      ensures Valid()
      ensures listeners == old(listeners)
      ensures parsed.None? || !Truthy(parsed.value.kind) || parsed.value.kind.value !in Kinds ==>
                latest == old(latest) && called == []
      ensures parsed.Some? && Truthy(parsed.value.kind) && parsed.value.kind.value in Kinds ==>
                var kind := parsed.value.kind.value;
                latest == old(latest)[kind := PayloadOf(parsed.value)] &&
                called == CalledUntilThrow(listeners[kind], throwing)
    {
      called := [];
      if parsed.None? {
        return;
      }
      var message := parsed.value;
      if message.kind.None? || message.kind.value == "" {
        return;
      }
      var kind := message.kind.value;
      if kind !in listeners {
        return;
      }
      var list := listeners[kind];
      var payload := PayloadOf(message);
      latest := latest[kind := payload];
      called := Deliver(list, throwing);
    }
  }

  /** A message dispatched while nobody listens is still cached, so the next subscriber of
      its kind is called with its payload at once. */
  method ReplayToLateSubscriber<P>(r: Registry<P>, m: Message<P>, cb: Callback) returns (replayed: Option<P>)
    requires r.Valid() && Truthy(m.kind) && m.kind.value in Kinds
    modifies r
    ensures r.Valid()
    ensures replayed == Some(PayloadOf(m))
  {
    var _ := r.OnMessage(Some(m), {});
    replayed := r.On(m.kind.value, cb);
  }

  /** Subscribing a callback that was not subscribed and then unsubscribing it leaves every
      list as it was. */
  method OnThenOff<P>(r: Registry<P>, kind: string, cb: Callback)
    requires r.Valid() && (kind in Kinds ==> cb !in r.listeners[kind])
    modifies r
    ensures r.Valid()
    ensures r.listeners == old(r.listeners) && r.latest == old(r.latest)
  {
    var _ := r.On(kind, cb);
    r.Off(kind, cb);
    if kind in Kinds {
      RemoveFirstAfterAppend(old(r.listeners)[kind], cb);
      assert r.listeners[kind] == old(r.listeners)[kind];
    }
  }

  // ---------------------------------------------------------------------------
  // `selectDate({date, ticker, interval})`

  /** The outgoing `{type: 'select_date', ...}` message; absent fields are `None`. */
  datatype SelectDate = SelectDate(date: Option<string>, ticker: Option<string>, interval: Option<string>)

  /** The message sent for a date selection: the date always, the ticker and the interval
      only when they are non-empty strings. */
  function SelectDateMessage(date: Option<string>, ticker: Option<string>, interval: Option<string>): (m: SelectDate)
    ensures m.date == date
    ensures m.ticker.Some? <==> Truthy(ticker)
    ensures m.interval.Some? <==> Truthy(interval)
    ensures m.ticker.Some? ==> m.ticker == ticker && m.ticker.value != ""
    ensures m.interval.Some? ==> m.interval == interval && m.interval.value != ""
  {
    SelectDate(date, if Truthy(ticker) then ticker else None, if Truthy(interval) then interval else None)
  }
}
