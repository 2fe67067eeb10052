/** The browser's event coordinator: one EventSource, callbacks per scope, catch-up on reconnect.
    EventSource states follow section 9.2 of the WHATWG HTML Living Standard. */
module Coordinator {
  import opened Vocabulary

  type Callback = nat

  datatype Health = Connected | Reconnecting | Disconnected

  datatype Source = Absent | Connecting | Open | Fatal

  /** A callback run, on an invalidation of its scope or on the catch-up after a reconnect. */
  datatype Call = Call(scope: Scope, callback: Callback)

  /** The registry is a JavaScript Map of Sets: both iterate in insertion order. */
  datatype Page = Page(
    source: Source,
    health: Health,
    hasOpened: bool,
    scopes: seq<Scope>,
    callbacks: map<Scope, seq<Callback>>)

  const NEW_PAGE := Page(Absent, Disconnected, false, [], map[])

  function CallbacksOf(callbacks: map<Scope, seq<Callback>>, scope: Scope): seq<Callback> {
    if scope in callbacks then callbacks[scope] else []
  }

  function CallEach(scope: Scope, callbacks: seq<Callback>): seq<Call> {
    if callbacks == [] then []
    else CallEach(scope, callbacks[..|callbacks| - 1]) + [Call(scope, callbacks[|callbacks| - 1])]
  }

  function CatchUpCalls(callbacks: map<Scope, seq<Callback>>, scopes: seq<Scope>): seq<Call> {
    if scopes == [] then []
    else
      var last := scopes[|scopes| - 1];
      CatchUpCalls(callbacks, scopes[..|scopes| - 1]) + CallEach(last, CallbacksOf(callbacks, last))
  }

  lemma {:induction false} CallEachRuns(scope: Scope, callbacks: seq<Callback>, c: Call)
    ensures c in CallEach(scope, callbacks) <==> c.scope == scope && c.callback in callbacks
  {
    if callbacks != [] {
      CallEachRuns(scope, callbacks[..|callbacks| - 1], c);
      assert callbacks == callbacks[..|callbacks| - 1] + [callbacks[|callbacks| - 1]];
    }
  }

  /** A catch-up runs every callback of every scope, and no other. */
  lemma {:induction false} CatchUpRuns(callbacks: map<Scope, seq<Callback>>, scopes: seq<Scope>, c: Call)
    ensures c in CatchUpCalls(callbacks, scopes) <==> c.scope in scopes && c.callback in CallbacksOf(callbacks, c.scope)
  {
    if scopes != [] {
      var last := scopes[|scopes| - 1];
      CatchUpRuns(callbacks, scopes[..|scopes| - 1], c);
      CallEachRuns(last, CallbacksOf(callbacks, last), c);
      assert scopes == scopes[..|scopes| - 1] + [last];
    }
  }

  function AfterConnect(p: Page): Page {
    if p.source.Absent? then p.(source := Connecting, health := Reconnecting) else p
  }

  function AfterDisconnect(p: Page): Page {
    p.(source := Absent, health := Disconnected)
  }

  function AfterOpen(p: Page): Page {
    p.(source := Open, health := Connected, hasOpened := true)
  }

  /** The first open has nothing to catch up with. */
  function OpenCalls(p: Page): seq<Call> {
    if p.hasOpened then CatchUpCalls(p.callbacks, p.scopes) else []
  }

  function AfterError(p: Page, fatal: bool): Page {
    p.(source := if fatal then Fatal else Connecting, health := if fatal then Disconnected else Reconnecting)
  }

  function AfterRegister(p: Page, scope: Scope, callback: Callback): Page {
    p.(scopes := if scope in p.callbacks then p.scopes else p.scopes + [scope],
       callbacks := p.callbacks[scope := if callback in CallbacksOf(p.callbacks, scope)
                                         then CallbacksOf(p.callbacks, scope)
                                         else CallbacksOf(p.callbacks, scope) + [callback]])
  }

  ghost predicate Distinct<T(!new)>(s: seq<T>) {
    forall i, j :: 0 <= i < j < |s| ==> s[i] != s[j]
  }

  function Without(callbacks: seq<Callback>, callback: Callback): (r: seq<Callback>)
    ensures forall c :: c in r <==> c in callbacks && c != callback
    ensures Distinct(callbacks) ==> Distinct(r)
  {
    if callbacks == [] then []
    else
      assert callbacks == [callbacks[0]] + callbacks[1..];
      assert Distinct(callbacks) ==> callbacks[0] !in callbacks[1..] && Distinct(callbacks[1..]);
      var rest := Without(callbacks[1..], callback);
      if callbacks[0] == callback then rest else [callbacks[0]] + rest
  }

  function AfterUnregister(p: Page, scope: Scope, callback: Callback): Page {
    if scope in p.callbacks then p.(callbacks := p.callbacks[scope := Without(p.callbacks[scope], callback)]) else p
  }

  predicate Listening(p: Page, scope: Scope, callback: Callback) {
    callback in CallbacksOf(p.callbacks, scope)
  }

  /** Every scope with callbacks is in the iteration order, once, and so are its callbacks. */
  ghost predicate Ordered(p: Page) {
    && (forall scope :: scope in p.callbacks <==> scope in p.scopes)
    && Distinct(p.scopes) && forall scope | scope in p.callbacks :: Distinct(p.callbacks[scope])
  }

  lemma {:induction false} CallEachOnce(scope: Scope, callbacks: seq<Callback>)
    requires Distinct(callbacks)
    ensures Distinct(CallEach(scope, callbacks))
  {
    if callbacks != [] {
      var front, last := callbacks[..|callbacks| - 1], callbacks[|callbacks| - 1];
      CallEachOnce(scope, front);
      CallEachRuns(scope, front, Call(scope, last));
      AppendDistinct(CallEach(scope, front), [Call(scope, last)]);
    }
  }

  lemma AppendDistinct<T(!new)>(a: seq<T>, b: seq<T>)
    requires Distinct(a) && Distinct(b) && forall x | x in b :: x !in a
    ensures Distinct(a + b)
  {
    forall i, j | 0 <= i < j < |a + b| ensures (a + b)[i] != (a + b)[j] {
      if i < |a| <= j {
        assert a[i] in a && b[j - |a|] in b;
      }
    }
  }

  /** A catch-up runs no callback twice. */
  lemma {:induction false} CatchUpRunsOnce(callbacks: map<Scope, seq<Callback>>, scopes: seq<Scope>)
    requires Distinct(scopes) && forall scope | scope in callbacks :: Distinct(callbacks[scope])
    ensures Distinct(CatchUpCalls(callbacks, scopes))
  {
    if scopes != [] {
      var front, last := scopes[..|scopes| - 1], scopes[|scopes| - 1];
      var more := CallEach(last, CallbacksOf(callbacks, last));
      CatchUpRunsOnce(callbacks, front);
      CallEachOnce(last, CallbacksOf(callbacks, last));
      forall c | c in more ensures c !in CatchUpCalls(callbacks, front) {
        CallEachRuns(last, CallbacksOf(callbacks, last), c);
        CatchUpRuns(callbacks, front, c);
      }
      AppendDistinct(CatchUpCalls(callbacks, front), more);
    }
  }

  lemma RegisterKeepsOrder(p: Page, scope: Scope, callback: Callback)
    requires Ordered(p)
    ensures Ordered(AfterRegister(p, scope, callback))
  {
  }

  lemma UnregisterKeepsOrder(p: Page, scope: Scope, callback: Callback)
    requires Ordered(p)
    ensures Ordered(AfterUnregister(p, scope, callback))
  {
  }

  lemma RegisterListens(p: Page, scope: Scope, callback: Callback, c: Call)
    ensures Listening(AfterRegister(p, scope, callback), c.scope, c.callback)
            <==> c == Call(scope, callback) || Listening(p, c.scope, c.callback)
    ensures Listening(AfterUnregister(p, scope, callback), c.scope, c.callback)
            <==> c != Call(scope, callback) && Listening(p, c.scope, c.callback)
  {
  }

  lemma RegisteringTwice(p: Page, scope: Scope, callback: Callback)
    requires Ordered(p)
    ensures Listening(p, scope, callback) ==> AfterRegister(p, scope, callback) == p
  {
  }

  lemma RegisterListensAll(p: Page, scope: Scope, callback: Callback)
    ensures forall s, cb :: Listening(AfterRegister(p, scope, callback), s, cb)
                            <==> (s == scope && cb == callback) || Listening(p, s, cb)
  {
    forall s, cb ensures Listening(AfterRegister(p, scope, callback), s, cb)
                         <==> (s == scope && cb == callback) || Listening(p, s, cb)
    {
      RegisterListens(p, scope, callback, Call(s, cb));
    }
  }

  lemma OpenRunsRegistered(p: Page)
    requires Ordered(p)
    ensures forall c :: c in OpenCalls(p) <==> p.hasOpened && Listening(p, c.scope, c.callback)
    ensures Distinct(OpenCalls(p))
  {
    CatchUpRunsOnce(p.callbacks, p.scopes);
    forall c ensures c in OpenCalls(p) <==> p.hasOpened && Listening(p, c.scope, c.callback) {
      if p.hasOpened {
        CatchUpRuns(p.callbacks, p.scopes, c);
      }
    }
  }

  lemma InvalidationRunsScope(p: Page, scope: Scope)
    requires Ordered(p)
    ensures Distinct(CallEach(scope, CallbacksOf(p.callbacks, scope)))
    ensures forall c :: c in CallEach(scope, CallbacksOf(p.callbacks, scope))
                        <==> c.scope == scope && Listening(p, c.scope, c.callback)
  {
    CallEachOnce(scope, CallbacksOf(p.callbacks, scope));
    forall c ensures c in CallEach(scope, CallbacksOf(p.callbacks, scope))
                     <==> c.scope == scope && Listening(p, c.scope, c.callback)
    {
      CallEachRuns(scope, CallbacksOf(p.callbacks, scope), c);
    }
  }

  lemma CatchUpGoesOn(callbacks: map<Scope, seq<Callback>>, scopes: seq<Scope>, n: nat)
    requires n < |scopes|
    ensures CatchUpCalls(callbacks, scopes[..n + 1])
            == CatchUpCalls(callbacks, scopes[..n]) + CallEach(scopes[n], CallbacksOf(callbacks, scopes[n]))
  {
    assert scopes[..n + 1][..n] == scopes[..n];
  }

  lemma CallsGoOn(scope: Scope, callbacks: seq<Callback>, callback: Callback)
    ensures CallEach(scope, callbacks + [callback]) == CallEach(scope, callbacks) + [Call(scope, callback)]
  {
    assert (callbacks + [callback])[..|callbacks|] == callbacks;
  }

  class EventCoordinator {
    var source: Source
    var health: Health
    var hasOpened: bool
    var scopes: seq<Scope>
    var callbacks: map<Scope, seq<Callback>>
    var calls: seq<Call>

    function View(): Page
      reads this
    {
      Page(source, health, hasOpened, scopes, callbacks)
    }

    ghost predicate Valid()
      reads this
    {
      Ordered(View())
    }

    /** The callback is among those run since `before`. */
    ghost predicate RunSince(before: seq<Call>, c: Call)
      reads this
    {
      before <= calls && c in calls[|before|..]
    }

    ghost predicate NoneTwiceSince(before: seq<Call>)
      reads this
    {
      before <= calls && Distinct(calls[|before|..])
    }

    constructor ()
      ensures Valid() && View() == NEW_PAGE && calls == []
    {
      source, health, hasOpened, scopes, callbacks, calls := Absent, Disconnected, false, [], map[], [];
    }

    /** A second call changes nothing: there is one EventSource. */
    method Connect()
      modifies this`source, this`health
      ensures View() == AfterConnect(old(View()))
      ensures old(source).Absent? ==> source.Connecting? && health.Reconnecting?
      ensures !old(source).Absent? ==> source == old(source) && health == old(health)
    {
      if source != Absent {
        return;
      }
      source := Connecting;
      health := Reconnecting;
    }

    method Disconnect()
      modifies this`source, this`health
      ensures View() == AfterDisconnect(old(View()))
      ensures source.Absent? && health.Disconnected?
    {
      source := Absent;
      health := Disconnected;
    }

    /** Whatever was missed, every open but the first runs every registered callback, and no other. */
    method OnOpen()
      requires Valid()
      modifies this`source, this`health, this`hasOpened, this`calls
      ensures Valid() && View() == AfterOpen(old(View()))
      ensures calls == old(calls) + OpenCalls(old(View()))
      ensures source.Open? && health.Connected? && hasOpened
      ensures !old(hasOpened) ==> calls == old(calls)
      ensures old(hasOpened) ==> forall c :: RunSince(old(calls), c) <==> Listening(View(), c.scope, c.callback)
      ensures NoneTwiceSince(old(calls))
    {
      OpenRunsRegistered(View());
      source := Open;
      health := Connected;
      if hasOpened {
        CatchUp();
      } else {
        hasOpened := true;
      }
    }

    method CatchUp()
      modifies this`calls
      ensures calls == old(calls) + CatchUpCalls(callbacks, scopes)
    {
      ghost var ran: seq<Call> := [];
      var i := 0;
      while i < |scopes|
        invariant 0 <= i <= |scopes|
        invariant ran == CatchUpCalls(callbacks, scopes[..i])
        invariant calls == old(calls) + ran
      {
        CatchUpGoesOn(callbacks, scopes, i);
        RunAll(scopes[i]);
        ghost var more := CallEach(scopes[i], CallbacksOf(callbacks, scopes[i]));
        assert old(calls) + ran + more == old(calls) + (ran + more);
        ran := ran + more;
        i := i + 1;
      }
      assert scopes[..i] == scopes;
    }

    method RunAll(scope: Scope)
      modifies this`calls
      ensures calls == old(calls) + CallEach(scope, CallbacksOf(callbacks, scope))
    {
      if scope in callbacks {
        var cbs, j := callbacks[scope], 0;
        while j < |cbs|
          invariant 0 <= j <= |cbs|
          invariant calls == old(calls) + CallEach(scope, cbs[..j])
        {
          CallsGoOn(scope, cbs[..j], cbs[j]);
          assert cbs[..j + 1] == cbs[..j] + [cbs[j]];
          calls := calls + [Call(scope, cbs[j])];
          j := j + 1;
        }
        assert cbs[..j] == cbs;
      }
    }

    method OnError(fatal: bool)
      modifies this`source, this`health
      ensures View() == AfterError(old(View()), fatal)
      ensures fatal ==> source.Fatal? && health.Disconnected?
      ensures !fatal ==> source.Connecting? && health.Reconnecting?
    {
      source := if fatal then Fatal else Connecting;
      health := if fatal then Disconnected else Reconnecting;
    }

    /** A malformed message names no scope and is ignored. */
    method OnInvalidate(scope: Option<Scope>)
      requires Valid()
      modifies this`calls
      ensures calls == if scope.Some? then old(calls) + CallEach(scope.value, CallbacksOf(callbacks, scope.value))
                       else old(calls)
      ensures scope.None? ==> calls == old(calls)
      ensures scope.Some? ==> forall c ::
                RunSince(old(calls), c) <==> c.scope == scope.value && Listening(View(), c.scope, c.callback)
      ensures NoneTwiceSince(old(calls))
    {
      if scope.Some? {
        InvalidationRunsScope(View(), scope.value);
        RunAll(scope.value);
      }
    }

    /** Registering twice is registering once. */
    method Register(scope: Scope, callback: Callback)
      requires Valid()
      modifies this`scopes, this`callbacks
      ensures Valid() && View() == AfterRegister(old(View()), scope, callback)
      ensures Listening(View(), scope, callback)
      ensures forall s, cb | s != scope || cb != callback :: Listening(View(), s, cb) <==> Listening(old(View()), s, cb)
      ensures Listening(old(View()), scope, callback) ==> View() == old(View())
    {
      ghost var before := View();
      if scope !in callbacks {
        scopes := scopes + [scope];
        callbacks := callbacks[scope := []];
      }
      if callback !in callbacks[scope] {
        callbacks := callbacks[scope := callbacks[scope] + [callback]];
      }
      assert View() == AfterRegister(before, scope, callback);
      RegisterListensAll(before, scope, callback);
      RegisterKeepsOrder(before, scope, callback);
      RegisteringTwice(before, scope, callback);
    }

    method Unregister(scope: Scope, callback: Callback)
      requires Valid()
      modifies this`callbacks
      ensures Valid() && View() == AfterUnregister(old(View()), scope, callback)
      ensures !Listening(View(), scope, callback)
      ensures forall s, cb | s != scope || cb != callback :: Listening(View(), s, cb) <==> Listening(old(View()), s, cb)
    {
      if scope in callbacks {
        callbacks := callbacks[scope := Without(callbacks[scope], callback)];
      }
    }
  }
}
