/** Activity sessions: the server that creates, rotates, revokes and closes them, and the client
    controller that refreshes one.  Tokens are fresh ids; a client without a token has `None`. */
module ActivitySessions {
  import opened Basics

  const SESSION_TTL_MS := 3_600_000
  const IDLE_TTL_MS := 300_000
  const BINDING_TTL_MS := 7_200_000

  function Min(a: Time, b: Time): Time { if a <= b then a else b }

  // ---------------------------------------------------------------- the server

  datatype Binding = Binding(expires: Time, closed: bool)

  datatype Session = Session(binding: Id, token: Id, expires: Time, idle: Time, revoked: bool)

  /** A join whose session is still to be inserted. */
  datatype Join = Join(binding: Id, bound: Time, now: Time)

  datatype Server = Server(bindings: map<Id, Binding>, joins: map<Id, Join>, sessions: map<Id, Session>, nextId: nat)

  datatype Reply = Reply(token: Id, expires: Time, idle: Time)

  /** The transaction of a join: it creates or extends an open binding. */
  function Bind(s: Server, join: Id, binding: Id, now: Time): Server {
    if join in s.joins || (binding in s.bindings && (s.bindings[binding].closed || s.bindings[binding].expires <= now))
      then s
    else
      s.(bindings := s.bindings[binding := Binding(now + BINDING_TTL_MS, false)],
         joins := s.joins[join := Join(binding, now + BINDING_TTL_MS, now)])
  }

  /** `createSession`: the session is inserted after that transaction, without another look at the binding. */
  function Open(s: Server, join: Id): (Server, Option<Reply>) {
    if join !in s.joins then (s, None)
    else
      var x := s.joins[join];
      var expires := Min(x.now + SESSION_TTL_MS, x.bound);
      var idle := Min(x.now + IDLE_TTL_MS, expires);
      if expires <= x.now || idle <= x.now then (s.(joins := s.joins - {join}), None)
      else
        (s.(joins := s.joins - {join},
          sessions := s.sessions[s.nextId := Session(x.binding, s.nextId + 1, expires, idle, false)],
          nextId := s.nextId + 2),
         Some(Reply(s.nextId + 1, expires, idle)))
  }

  predicate Holder(s: Server, row: Id, token: Id) { row in s.sessions && s.sessions[row].token == token }

  predicate Refreshable(s: Server, row: Id, now: Time)
    requires row in s.sessions
  {
    var x := s.sessions[row];
    && !x.revoked && now < x.expires && now < x.idle
    && x.binding in s.bindings && !s.bindings[x.binding].closed && now < s.bindings[x.binding].expires
  }

  /** The row found by the digest of the token, when there is one. */
  function Refresh(s: Server, row: Id, token: Id, now: Time): (Server, Option<Reply>) {
    if !Holder(s, row, token) || !Refreshable(s, row, now) then (s, None)
    else
      var x := s.sessions[row];
      var idle := Min(Min(now + IDLE_TTL_MS, x.expires), s.bindings[x.binding].expires);
      if idle <= now then (s, None)
      else
        (s.(sessions := s.sessions[row := x.(token := s.nextId, idle := idle)], nextId := s.nextId + 1),
         Some(Reply(s.nextId, x.expires, idle)))
  }

  function Revoke(s: Server, row: Id, token: Id): Server {
    if Holder(s, row, token) then s.(sessions := s.sessions[row := s.sessions[row].(revoked := true)]) else s
  }

  function Close(s: Server, binding: Id): Server {
    if binding !in s.bindings || s.bindings[binding].closed then s
    else
      s.(bindings := s.bindings[binding := s.bindings[binding].(closed := true)],
         sessions := map x | x in s.sessions ::
           if s.sessions[x].binding == binding then s.sessions[x].(revoked := true) else s.sessions[x])
  }

  datatype ServerStep =
    | BindStep(join: Id, binding: Id, now: Time)
    | OpenStep(join: Id)
    | CrashStep(join: Id)
    | RefreshStep(row: Id, token: Id, now: Time)
    | RevokeStep(row: Id, token: Id)
    | CloseStep(binding: Id)

  function Serve(s: Server, step: ServerStep): Server {
    match step
    case BindStep(join, binding, now) => Bind(s, join, binding, now)
    case OpenStep(join) => Open(s, join).0
    case CrashStep(join) => s.(joins := s.joins - {join})
    case RefreshStep(row, token, now) => Refresh(s, row, token, now).0
    case RevokeStep(row, token) => Revoke(s, row, token)
    case CloseStep(binding) => Close(s, binding)
  }

  function ServeAll(s: Server, steps: seq<ServerStep>): Server {
    if |steps| == 0 then s else Serve(ServeAll(s, steps[..|steps| - 1]), steps[|steps| - 1])
  }

  /** Tokens are below the generator and belong to one session; a session idles out by its expiry, and its
      binding exists. */
  predicate ServerValid(s: Server) {
    && (forall x :: x in s.sessions ==>
       x < s.nextId && s.sessions[x].token < s.nextId && s.sessions[x].idle <= s.sessions[x].expires)
    && (forall x, y :: x in s.sessions && y in s.sessions && s.sessions[x].token == s.sessions[y].token ==> x == y)
    && (forall x :: x in s.sessions ==> s.sessions[x].binding in s.bindings)
    && (forall join :: join in s.joins ==> s.joins[join].binding in s.bindings)
  }

  /** What no step undoes: the absolute expiry, the binding and revocation of a session. */
  predicate SessionEvolves(s: Server, t: Server, x: Id) {
    && x in s.sessions && x in t.sessions
    && t.sessions[x].expires == s.sessions[x].expires && t.sessions[x].binding == s.sessions[x].binding
    && (s.sessions[x].revoked ==> t.sessions[x].revoked)
  }

  /** The token was handed out and no session holds it. */
  predicate Spent(s: Server, token: Id) {
    token < s.nextId && forall x :: x in s.sessions ==> s.sessions[x].token != token
  }

  predicate Closed(s: Server, binding: Id) { binding in s.bindings && s.bindings[binding].closed }

  lemma BindValid(s: Server, join: Id, binding: Id, now: Time)
    requires ServerValid(s)
    ensures ServerValid(Bind(s, join, binding, now)) && ServerValid(s.(joins := s.joins - {join}))
  {
  }

  lemma OpenValid(s: Server, join: Id)
    requires ServerValid(s)
    ensures ServerValid(Open(s, join).0)
  {
  }

  lemma RefreshValid(s: Server, row: Id, token: Id, now: Time)
    requires ServerValid(s)
    ensures ServerValid(Refresh(s, row, token, now).0)
  {
  }

  lemma RevokeValid(s: Server, row: Id, token: Id)
    requires ServerValid(s)
    ensures ServerValid(Revoke(s, row, token))
  {
  }

  lemma CloseValid(s: Server, binding: Id)
    requires ServerValid(s)
    ensures ServerValid(Close(s, binding))
  {
  }

  lemma ServeValid(s: Server, step: ServerStep)
    requires ServerValid(s)
    ensures ServerValid(Serve(s, step))
  {
    hide ServerValid, Bind, Open, Refresh, Revoke, Close;
    match step
    case BindStep(join, binding, now) => BindValid(s, join, binding, now);
    case OpenStep(join) => OpenValid(s, join);
    case CrashStep(join) => BindValid(s, join, 0, 0);
    case RefreshStep(row, token, now) => RefreshValid(s, row, token, now);
    case RevokeStep(row, token) => RevokeValid(s, row, token);
    case CloseStep(binding) => CloseValid(s, binding);
  }

  lemma ServeEvolves(s: Server, step: ServerStep, x: Id)
    requires ServerValid(s) && x in s.sessions
    ensures SessionEvolves(s, Serve(s, step), x)
  {
  }

  lemma ServeKeeps(s: Server, step: ServerStep, spent: Id, binding: Id)
    ensures Spent(s, spent) ==> Spent(Serve(s, step), spent)
    ensures Closed(s, binding) ==> Closed(Serve(s, step), binding)
  {
  }

  lemma {:induction false} ServeAllEvolves(s: Server, steps: seq<ServerStep>, x: Id)
    requires ServerValid(s)
    ensures ServerValid(ServeAll(s, steps)) && (x in s.sessions ==> SessionEvolves(s, ServeAll(s, steps), x))
  {
    hide Serve, ServerValid;
    if |steps| > 0 {
      ServeAllEvolves(s, steps[..|steps| - 1], x);
      ServeValid(ServeAll(s, steps[..|steps| - 1]), steps[|steps| - 1]);
      if x in s.sessions { ServeEvolves(ServeAll(s, steps[..|steps| - 1]), steps[|steps| - 1], x); }
    }
  }

  lemma {:induction false} ServeAllKeeps(s: Server, steps: seq<ServerStep>, spent: Id, binding: Id)
    ensures Spent(s, spent) ==> Spent(ServeAll(s, steps), spent)
    ensures Closed(s, binding) ==> Closed(ServeAll(s, steps), binding)
  {
    hide Serve, Spent, Closed;
    if |steps| > 0 {
      ServeAllKeeps(s, steps[..|steps| - 1], spent, binding);
      ServeKeeps(ServeAll(s, steps[..|steps| - 1]), steps[|steps| - 1], spent, binding);
    }
  }

  /** However often a session is refreshed, it ends at its first absolute expiry, and no refresh promises
      idle time beyond it. */
  lemma NeverBeyondFirstExpiry(s: Server, steps: seq<ServerStep>, row: Id, token: Id, now: Time)
    requires ServerValid(s) && row in s.sessions
    ensures var reply := Refresh(ServeAll(s, steps), row, token, now).1;
            reply.Some? ==> reply.value.expires == s.sessions[row].expires
                            && now < reply.value.idle <= s.sessions[row].expires
  {
    hide ServeAll;
    ServeAllEvolves(s, steps, row);
  }

  /** A replaced token is never accepted again, for any session there is or ever will be. */
  lemma RotatedTokenIsDead(s: Server, row: Id, token: Id, now: Time, steps: seq<ServerStep>, x: Id, later: Time)
    requires ServerValid(s) && Refresh(s, row, token, now).1.Some?
    ensures Refresh(ServeAll(Refresh(s, row, token, now).0, steps), x, token, later).1.None?
  {
    var t := Refresh(s, row, token, now).0;
    assert Spent(t, token);
    hide ServeAll, ServerValid;
    ServeAllKeeps(t, steps, token, 0);
  }

  /** Once an instance is closed, no session of it is refreshed, not even one inserted afterwards by a
      join that was under way. */
  lemma ClosedIsFinal(s: Server, binding: Id, steps: seq<ServerStep>, x: Id, token: Id, now: Time)
    requires binding in s.bindings
    ensures var t := ServeAll(Close(s, binding), steps);
            x in t.sessions && t.sessions[x].binding == binding ==> Refresh(t, x, token, now).1.None?
  {
    assert Closed(Close(s, binding), binding);
    hide ServeAll;
    ServeAllKeeps(Close(s, binding), steps, 0, binding);
  }

  /** Every session of the instance is revoked. */
  predicate AllRevoked(s: Server, binding: Id) {
    forall x :: x in s.sessions && s.sessions[x].binding == binding ==> s.sessions[x].revoked
  }

  predicate Opens(x: Join, binding: Id) { x.binding == binding && x.now < Min(x.now + SESSION_TTL_MS, x.bound) }

  /** A join has bound the instance and is still to insert its session, with time left in it. */
  predicate UnderWay(s: Server, binding: Id) {
    exists join :: join in s.joins && Opens(s.joins[join], binding)
  }

  /** No step brings a closed instance without a join under way a session that is not revoked. */
  lemma ServeStaysRevoked(s: Server, step: ServerStep, binding: Id)
    requires Closed(s, binding) && AllRevoked(s, binding) && !UnderWay(s, binding)
    ensures var t := Serve(s, step); Closed(t, binding) && AllRevoked(t, binding) && !UnderWay(t, binding)
  {
    var t := Serve(s, step);
    forall join | join in t.joins ensures !Opens(t.joins[join], binding) {
      if join in s.joins { assert !Opens(s.joins[join], binding); }
    }
    if step.OpenStep? && step.join in s.joins { assert !Opens(s.joins[step.join], binding); }
  }

  lemma {:induction false} StaysRevoked(s: Server, steps: seq<ServerStep>, binding: Id)
    requires Closed(s, binding) && AllRevoked(s, binding) && !UnderWay(s, binding)
    ensures AllRevoked(ServeAll(s, steps), binding)
    ensures Closed(ServeAll(s, steps), binding) && !UnderWay(ServeAll(s, steps), binding)
  {
    hide Serve, Closed, AllRevoked, UnderWay;
    if |steps| > 0 {
      StaysRevoked(s, steps[..|steps| - 1], binding);
      ServeStaysRevoked(ServeAll(s, steps[..|steps| - 1]), steps[|steps| - 1], binding);
    }
  }

  lemma CloseRevokes(s: Server, binding: Id)
    requires binding in s.bindings && !s.bindings[binding].closed
    ensures var t := Close(s, binding);
            Closed(t, binding) && AllRevoked(t, binding) && (UnderWay(t, binding) <==> UnderWay(s, binding))
  {
    assert Close(s, binding).joins == s.joins;
  }

  lemma OpenEscapes(s: Server, join: Id, binding: Id)
    requires join in s.joins && Opens(s.joins[join], binding)
    ensures !AllRevoked(ServeAll(s, [OpenStep(join)]), binding)
  {
    assert [OpenStep(join)][..0] == [];
    var t := Open(s, join).0;
    assert ServeAll(s, [OpenStep(join)]) == t;
    assert s.nextId in t.sessions && t.sessions[s.nextId].binding == binding && !t.sessions[s.nextId].revoked;
  }

  /** The exact condition for closing an open instance to revoke all its sessions for good, those inserted
      later included: no join of it is under way. */
  lemma CloseRevokesIff(s: Server, binding: Id)
    requires binding in s.bindings && !s.bindings[binding].closed
    ensures (forall steps :: AllRevoked(ServeAll(Close(s, binding), steps), binding)) <==> !UnderWay(s, binding)
  {
    hide AllRevoked, ServeAll, Close, Opens;
    var t := Close(s, binding);
    CloseRevokes(s, binding);
    if UnderWay(t, binding) {
      var join :| join in t.joins && Opens(t.joins[join], binding);
      OpenEscapes(t, join, binding);
    } else {
      forall steps ensures AllRevoked(ServeAll(t, steps), binding) { StaysRevoked(t, steps, binding); }
    }
  }

  /** Closing revokes the sessions there are; a join under way can still insert one that is not revoked. */
  lemma LateSessionIsNotRevoked(binding: Id, join: Id, now: Time)
    ensures var t := ServeAll(Server(map[], map[], map[], 0),
            [BindStep(join, binding, now), CloseStep(binding), OpenStep(join)]);
            && 0 in t.sessions && t.sessions[0].binding == binding && !t.sessions[0].revoked && Closed(t, binding)
  {
    var s := Server(map[], map[], map[], 0);
    var steps := [BindStep(join, binding, now), CloseStep(binding), OpenStep(join)];
    assert steps[..2] == [BindStep(join, binding, now), CloseStep(binding)];
    assert steps[..2][..1] == [BindStep(join, binding, now)] && steps[..2][..1][..0] == [];
    var bound := Bind(s, join, binding, now);
    assert ServeAll(s, steps[..2][..1]) == bound;
    assert ServeAll(s, steps[..2]) == Close(bound, binding);
  }

  // ---------------------------------------------------------------- the client

  datatype ConnectionState = Active | Disconnected | Expired | Stopped

  datatype Client = Client(token: Option<Id>, idle: Time, absolute: Time, state: ConnectionState, stopped: bool,
                           timer: Option<Time>, inFlight: bool)

  function IsExpired(c: Client, now: Time): bool { c.absolute <= now || c.idle <= now }

  function Expire(c: Client): Client {
    if c.state.Expired? then c else c.(token := None, state := Expired, timer := None)
  }

  function Start(c: Client, now: Time, lead: nat): Client {
    if c.stopped then c else if IsExpired(c, now) then Expire(c) else Schedule(c.(state := Active), now, lead)
  }

  function Schedule(c: Client, now: Time, lead: nat): Client {
    if c.stopped then c else c.(timer := Some(now + (if c.idle - now - lead > 0 then c.idle - now - lead else 0)))
  }

  function Stop(c: Client): Client { c.(stopped := true, timer := None, token := None, state := Stopped) }

  /** A refresh begins: nothing happens while one is under way, or when the session is over. */
  function Begin(c: Client, now: Time): Client {
    if c.inFlight || c.stopped then c else if IsExpired(c, now) then Expire(c) else c.(inFlight := true)
  }

  /** The client's acceptance test. */
  predicate Acceptable(c: Client, r: Reply, now: Time) {
    r.expires <= c.absolute && now < r.expires && now < r.idle <= r.expires
  }

  datatype Answer = Replied(reply: Reply) | Failed(terminal: bool)

  function Finish(c: Client, answer: Answer, now: Time, lead: nat, retry: nat): Client {
    var d := c.(inFlight := false);
    if !c.inFlight || c.stopped then d
    else if answer.Replied? && Acceptable(c, answer.reply, now) then
      Schedule(d.(token := Some(answer.reply.token), idle := answer.reply.idle, state := Active), now, lead)
    // A reply that fails the test raises an error whose message says so, which counts as terminal.
    else if IsExpired(c, now) || answer.Replied? || answer.terminal then Expire(d)
    else d.(state := Disconnected, timer := Some(now + retry))
  }

  datatype ClientStep =
    | StartStep(now: Time, lead: nat)
    | StopStep
    | BeginStep(now: Time)
    | TimerStep(now: Time)
    | FinishStep(answer: Answer, now: Time, lead: nat, retry: nat)

  function Act(c: Client, step: ClientStep): Client {
    match step
    case StartStep(now, lead) => Start(c, now, lead)
    case StopStep => Stop(c)
    case BeginStep(now) => Begin(c, now)
    case TimerStep(now) => if c.timer.Some? && c.timer.value <= now then Begin(c.(timer := None), now) else c
    case FinishStep(answer, now, lead, retry) => Finish(c, answer, now, lead, retry)
  }

  function ActAll(c: Client, steps: seq<ClientStep>): Client {
    if |steps| == 0 then c else Act(ActAll(c, steps[..|steps| - 1]), steps[|steps| - 1])
  }

  /** Stopping is final: no token, no timer and no other state ever again, even if a refresh comes back. */
  lemma {:induction false} StoppedForever(c: Client, steps: seq<ClientStep>)
    ensures var d := ActAll(Stop(c), steps);
            d.stopped && d.state.Stopped? && d.token.None? && d.timer.None?
  {
    if |steps| > 0 { StoppedForever(c, steps[..|steps| - 1]); }
  }

  /** A step that takes an expired client out of that state: stopping it, starting it while its times
      still run, or the end of a refresh under way, with an acceptable reply or, while its times still
      run, with an error that is not terminal. */
  predicate Leaves(c: Client, step: ClientStep) {
    match step
    case StopStep => true
    case StartStep(now, _) => !c.stopped && !IsExpired(c, now)
    case FinishStep(answer, now, _, _) =>
      c.inFlight && !c.stopped
      && (if answer.Replied? then Acceptable(c, answer.reply, now) else !answer.terminal && !IsExpired(c, now))
    case _ => false
  }

  /** Expiry is not final: over any run a client that has expired stays so exactly until such a step. */
  lemma {:induction false} ExpiredStaysIff(c: Client, steps: seq<ClientStep>)
    requires c.state.Expired?
    ensures (forall n :: 0 <= n <= |steps| ==> ActAll(c, steps[..n]).state.Expired?)
            <==> forall n :: 0 <= n < |steps| ==> !Leaves(ActAll(c, steps[..n]), steps[n])
  {
    hide Act, Leaves;
    if |steps| > 0 {
      var init := steps[..|steps| - 1];
      ExpiredStaysIff(c, init);
      assert steps[..|steps|] == steps;
      forall n | 0 <= n <= |init| ensures init[..n] == steps[..n] {}
      assert init[..|init|] == init;
      if forall n :: 0 <= n <= |init| ==> ActAll(c, init[..n]).state.Expired? {
        assert ActAll(c, init[..|init|]).state.Expired?;
        LeavesOrStays(ActAll(c, init), steps[|steps| - 1]);
      }
      ExpiredPrefixes(c, steps);
    } else {
      assert steps[..0] == steps;
    }
  }

  /** A refresh that began before the client's expiry brings it back. */
  lemma RefreshBringsBack(token: Id)
    ensures var c := Client(Some(1), 10, 100, Active, false, None, false);
            var steps := [BeginStep(5), StartStep(10, 0), FinishStep(Replied(Reply(token, 100, 60)), 11, 0, 0)];
            && ActAll(c, steps[..2]).state.Expired?
            && ActAll(c, steps).state.Active? && ActAll(c, steps).token == Some(token)
  {
    var c := Client(Some(1), 10, 100, Active, false, None, false);
    var steps := [BeginStep(5), StartStep(10, 0), FinishStep(Replied(Reply(token, 100, 60)), 11, 0, 0)];
    assert steps[..2] == [BeginStep(5), StartStep(10, 0)] && steps[..2][..1] == [BeginStep(5)];
    assert steps[..2][..1][..0] == [];
    assert ActAll(c, steps[..2][..1]) == c.(inFlight := true);
    assert ActAll(c, steps[..2]) == Expire(c.(inFlight := true));
  }

  lemma LeavesOrStays(c: Client, step: ClientStep)
    requires c.state.Expired?
    ensures Act(c, step).state.Expired? <==> !Leaves(c, step)
  {
  }

  lemma ExpiredPrefixes(c: Client, steps: seq<ClientStep>)
    requires |steps| > 0
    ensures var init := steps[..|steps| - 1];
            && ((forall n :: 0 <= n <= |steps| ==> ActAll(c, steps[..n]).state.Expired?)
                <==> (forall n :: 0 <= n <= |init| ==> ActAll(c, init[..n]).state.Expired?)
                     && ActAll(c, steps).state.Expired?)
            && ((forall n :: 0 <= n < |steps| ==> !Leaves(ActAll(c, steps[..n]), steps[n]))
                <==> (forall n :: 0 <= n < |init| ==> !Leaves(ActAll(c, init[..n]), init[n]))
                     && !Leaves(ActAll(c, init), steps[|steps| - 1]))
  {
    hide ActAll, Leaves;
    var init := steps[..|steps| - 1];
    assert steps[..|steps|] == steps && steps[..|init|] == init;
    forall n | 0 <= n <= |init| ensures init[..n] == steps[..n] {}
  }

  /** The pair fits together: what the server replies passes the client's test at the same instant. */
  lemma ServerReplyIsAccepted(s: Server, steps: seq<ServerStep>, row: Id, token: Id, c: Client, now: Time)
    requires ServerValid(s) && row in s.sessions && c.absolute == s.sessions[row].expires
    ensures var reply := Refresh(ServeAll(s, steps), row, token, now).1;
            reply.Some? ==> Acceptable(c, reply.value, now)
  {
    hide ServeAll;
    ServeAllEvolves(s, steps, row);
  }

  /** The client never reckons with idle time beyond its first absolute expiry. */
  lemma {:induction false} NeverIdlesBeyond(c: Client, steps: seq<ClientStep>)
    requires c.idle <= c.absolute
    ensures ActAll(c, steps).idle <= c.absolute && ActAll(c, steps).absolute == c.absolute
  {
    if |steps| > 0 { NeverIdlesBeyond(c, steps[..|steps| - 1]); }
  }

  class Controller {
    var token: Option<Id>
    var idle: Time
    const absolute: Time
    var state: ConnectionState
    var stopped: bool
    var timer: Option<Time>
    var inFlight: bool

    constructor (token: Id, expires: Time, idle: Time)
      ensures Contents() == Client(Some(token), idle, expires, Active, false, None, false)
    {
      this.token, this.idle, this.absolute := Some(token), idle, expires;
      state, stopped, timer, inFlight := Active, false, None, false;
    }

    function Contents(): Client
      reads this
    {
      Client(token, idle, absolute, state, stopped, timer, inFlight)
    }

    method StartNow(now: Time, lead: nat)
      modifies this
      ensures Contents() == Start(old(Contents()), now, lead)
    {
      if stopped {
        return;
      }
      if IsExpired(Contents(), now) {
        ExpireNow();
        return;
      }
      state := Active;
      ScheduleRefresh(now, lead);
    }

    method StopNow()
      modifies this
      ensures Contents() == Stop(old(Contents()))
    {
      stopped := true;
      timer := None;
      token := None;
      state := Stopped;
    }

    method ExpireNow()
      modifies this
      ensures Contents() == Expire(old(Contents()))
    {
      if state.Expired? {
        return;
      }
      timer := None;
      token := None;
      state := Expired;
    }

    method ScheduleRefresh(now: Time, lead: nat)
      modifies this`timer
      ensures Contents() == Schedule(old(Contents()), now, lead)
    {
      if stopped {
        return;
      }
      var delay := idle - now - lead;
      timer := Some(now + (if delay > 0 then delay else 0));
    }

    method CompleteRefresh(answer: Answer, now: Time, lead: nat, retry: nat)
      modifies this
      ensures Contents() == Finish(old(Contents()), answer, now, lead, retry)
    {
      var waiting := inFlight;
      inFlight := false;
      if !waiting || stopped {
        return;
      }
      if answer.Replied? && answer.reply.expires <= absolute && now < answer.reply.expires && now < answer.reply.idle
         && answer.reply.idle <= answer.reply.expires
      {
        token, idle, state := Some(answer.reply.token), answer.reply.idle, Active;
        ScheduleRefresh(now, lead);
      } else if IsExpired(Contents(), now) || answer.Replied? || answer.terminal {
        ExpireNow();
      } else {
        state := Disconnected;
        timer := Some(now + retry);
      }
    }
  }
}
