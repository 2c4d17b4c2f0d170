/** Handing listen addresses over between an app and its GoAccess service during a deploy. */
module Listeners {

  // ------------------------------------------------------------------ addresses

  /** A bind host after trimming, lower-casing and removing brackets and zones.  `Star` also stands
      for the empty host; IPv4-mapped addresses are written as IPv4. */
  datatype Host = V4(n: nat) | V6(n: nat) | Any4 | Any6 | Star | Localhost | OtherName(name: string)

  datatype Address = Address(host: Host, port: nat)

  const LOOPBACK4 := V4(0x7f00_0001)
  const LOOPBACK6 := V6(1)

  predicate IsLoopback(h: Host) {
    match h
    case V4(n) => n / 0x100_0000 == 127
    case V6(n) => n == 1
    case Localhost => true
    case _ => false
  }

  predicate IsWildcard(h: Host) {
    h.Star? || h.Any4? || h.Any6?
  }

  predicate WildcardOverlaps(wildcard: Host, h: Host) {
    wildcard.Any4? ==> h.V4? || h.Any4? || h.Localhost?
  }

  /** The overlap test of the validator and of the socket check. */
  predicate Overlap(left: Host, right: Host) {
    if left.Star? || right.Star? then true
    else if IsWildcard(left) then WildcardOverlaps(left, right)
    else if IsWildcard(right) then WildcardOverlaps(right, left)
    else if left == right then true
    else if left.Localhost? then IsLoopback(right)
    else if right.Localhost? then IsLoopback(left)
    else false
  }

  /** Two sockets on one port that the kernel may refuse to have side by side.  A socket on all IPv6
      addresses may take the IPv4 ones too. */
  predicate Clash(a: Host, b: Host) {
    || a == b || a.Star? || b.Star? || a.Any6? || b.Any6?
    || (a.Any4? && b.V4?) || (b.Any4? && a.V4?)
  }

  /** The sockets a service configured to listen on `h` may open. */
  function Opens(h: Host): set<Host> {
    if h.Localhost? then {LOOPBACK4, LOOPBACK6} else {h}
  }

  /** What validation lets through as a listen host. */
  predicate Configurable(h: Host) {
    IsLoopback(h)
  }

  /** The overlap test misses no clash with a configured host. */
  lemma OverlapCoversClash(socket: Host, configured: Host, bound: Host)
    requires Configurable(configured) && bound in Opens(configured) && Clash(socket, bound)
    ensures Overlap(socket, configured)
  {
  }

  /** For a configured literal address, and a socket as the kernel lists it, it is exact. */
  lemma OverlapIsClash(socket: Host, configured: Host)
    requires IsLoopback(configured) && !configured.Localhost? && !socket.Localhost?
    ensures Overlap(socket, configured) <==> Clash(socket, configured)
  {
  }

  /** Two configured hosts that do not overlap never clash, whatever each of them opens. */
  lemma ConfiguredApart(app: Host, goAccess: Host, a: Host, g: Host)
    requires Configurable(app) && Configurable(goAccess) && !Overlap(app, goAccess)
    requires a in Opens(app) && g in Opens(goAccess)
    ensures !Clash(a, g)
  {
  }

  // ------------------------------------------------------------------ sockets

  datatype Owner = App | GoAccess | Foreign

  datatype Socket = Socket(host: Host, port: nat, owner: Owner)

  function Without(sockets: seq<Socket>, owner: Owner): (rest: seq<Socket>)
    ensures forall s :: s in rest <==> s in sockets && s.owner != owner
  {
    if sockets == [] then []
    else (if sockets[0].owner == owner then [] else [sockets[0]]) + Without(sockets[1..], owner)
  }

  /** No socket of `owner` stands in the way of a service that listens on `address`. */
  predicate OutOfTheWay(sockets: seq<Socket>, owner: Owner, address: Address) {
    forall s <- sockets :: s.owner == owner && s.port == address.port ==>
      forall bound <- Opens(address.host) :: !Clash(s.host, bound)
  }

  /** The same, unfolded only where `ClearMeans` asks for it. */
  predicate Clear(sockets: seq<Socket>, owner: Owner, address: Address) {
    forall o {:trigger OutOfTheWay(sockets, o, address)} :: o == owner ==> OutOfTheWay(sockets, o, address)
  }

  lemma ClearMeans(sockets: seq<Socket>, owner: Owner, address: Address)
    ensures Clear(sockets, owner, address) <==> OutOfTheWay(sockets, owner, address)
  {
  }

  /** All sockets of `owner` are ones that `address` asks for. */
  predicate Settled(sockets: seq<Socket>, owner: Owner, address: Address) {
    forall s <- sockets :: s.owner == owner ==> s.port == address.port && s.host in Opens(address.host)
  }

  /** Moving the sockets of one owner makes no difference to another. */
  lemma OthersStay(before: seq<Socket>, after: seq<Socket>, owner: Owner, address: Address)
    requires forall s: Socket :: s.owner == owner ==> (s in before <==> s in after)
    ensures Clear(before, owner, address) <==> Clear(after, owner, address)
  {
    ClearMeans(before, owner, address);
    ClearMeans(after, owner, address);
  }

  datatype Mode = Listen | Upstream

  datatype Challenge = HTTP01 | DNS01

  /** What happens to services; `clear` says whether the other managed service was out of the way.
      `NginxReloaded` is the reload that switches over, `HookReloaded` one by the certificate hook, and
      `CertificateAsked` says that lego has been asked for a certificate. */
  datatype Event =
    | AppRestarted(clear: bool)
    | AppRemoved
    | GoAccessStopped
    | GoAccessRestarted(clear: bool)
    | GoAccessRemoved
    | NginxReloaded(clear: bool)
    | HookReloaded(clear: bool)
    | CertificateAsked

  predicate AllClear(log: seq<Event>) {
    forall e <- log :: (e.AppRestarted? || e.GoAccessRestarted? || e.NginxReloaded?) ==> e.clear
  }

  /** Every reload by the hook has found what `clear` says, and there is one if the hook has run. */
  predicate Hooks(log: seq<Event>, ran: bool, clear: bool) {
    && (forall e <- log :: e.HookReloaded? ==> e.clear == clear)
    && (ran ==> HookReloaded(clear) in log)
  }

  predicate AppMove(e: Event) {
    e.AppRestarted? || e.AppRemoved?
  }

  /** What may come before Nginx is switched over. */
  predicate FitsBefore(e: Event, challenge: Challenge) {
    && !e.NginxReloaded? && !e.GoAccessRestarted? && !e.GoAccessRemoved?
    && (challenge.HTTP01? ==> !e.HookReloaded? && !e.CertificateAsked?)
  }

  /** Nginx is not switched over yet, and nothing is done that has to come after it. */
  predicate NotSwitched(log: seq<Event>, challenge: Challenge) {
    forall e <- log :: FitsBefore(e, challenge)
  }

  /** Nginx is switched over at `k` and nowhere else, with both services out of each other's way.
      GoAccess is restarted or removed after that; the certificate comes before it with DNS-01, and
      after it with HTTP-01. */
  predicate SwitchedAt(log: seq<Event>, challenge: Challenge, k: nat) {
    && k < |log| && log[k] == NginxReloaded(true)
    && (forall i :: 0 <= i < |log| && i != k ==> !log[i].NginxReloaded?)
    && (forall i :: 0 <= i < k ==> !log[i].GoAccessRestarted? && !log[i].GoAccessRemoved?)
    && (forall i :: 0 <= i < |log| && (log[i].HookReloaded? || log[i].CertificateAsked?) ==>
          if challenge.DNS01? then i < k else i > k)
  }

  ghost predicate SwitchedOnce(log: seq<Event>, challenge: Challenge) {
    exists k :: SwitchedAt(log, challenge, k)
  }

  /** The app was restarted or removed before Nginx was switched over. */
  ghost predicate MovedEarly(log: seq<Event>) {
    exists i, k :: 0 <= i < k < |log| && AppMove(log[i]) && log[k].NginxReloaded?
  }

  /** What may be added after that. */
  predicate FitsAfter(e: Event, challenge: Challenge) {
    !e.NginxReloaded? && (challenge.DNS01? ==> !e.HookReloaded? && !e.CertificateAsked?)
  }

  lemma StillNotSwitched(log: seq<Event>, e: Event, challenge: Challenge)
    requires NotSwitched(log, challenge) && FitsBefore(e, challenge)
    ensures NotSwitched(log + [e], challenge)
  {
  }

  lemma Switching(log: seq<Event>, challenge: Challenge)
    requires NotSwitched(log, challenge)
    ensures SwitchedOnce(log + [NginxReloaded(true)], challenge)
    ensures MovedEarly(log + [NginxReloaded(true)]) <==> exists e <- log :: AppMove(e)
  {
    var after := log + [NginxReloaded(true)];
    assert SwitchedAt(after, challenge, |log|) by {
      assert forall i :: 0 <= i < |log| ==> log[i] in log;
    }
    if e :| e in log && AppMove(e) {
      var i :| 0 <= i < |log| && log[i] == e;
      assert AppMove(after[i]) && after[|log|].NginxReloaded?;
    }
    if MovedEarly(after) {
      var i, k :| 0 <= i < k < |after| && AppMove(after[i]) && after[k].NginxReloaded?;
      assert log[i] in log;
    }
  }

  lemma StillSwitched(log: seq<Event>, e: Event, challenge: Challenge)
    requires SwitchedOnce(log, challenge) && FitsAfter(e, challenge)
    ensures SwitchedOnce(log + [e], challenge) && (MovedEarly(log + [e]) <==> MovedEarly(log))
  {
    var k :| SwitchedAt(log, challenge, k);
    assert SwitchedAt(log + [e], challenge, k);
    if MovedEarly(log) {
      var i, j :| 0 <= i < j < |log| && AppMove(log[i]) && log[j].NginxReloaded?;
      assert AppMove((log + [e])[i]) && (log + [e])[j].NginxReloaded?;
    }
    if MovedEarly(log + [e]) {
      var i, j :| 0 <= i < j < |log + [e]| && AppMove((log + [e])[i]) && (log + [e])[j].NginxReloaded?;
      assert AppMove(log[i]) && log[j].NginxReloaded?;
    }
  }

  /** The app's transitions and the GoAccess restarts, in order. */
  function Transitions(log: seq<Event>): seq<Event> {
    if log == [] then []
    else
      var last := log[|log| - 1];
      Transitions(log[..|log| - 1])
      + (if last.AppRestarted? || last.AppRemoved? || last.GoAccessRestarted? then [last] else [])
  }

  /** Before the switch-over there are transitions of the app exactly if it has moved. */
  lemma {:induction false} MovesAreTransitions(log: seq<Event>)
    ensures Transitions(log) == [] ==> forall e <- log :: !AppMove(e) && !e.GoAccessRestarted?
    ensures (forall e <- log :: !AppMove(e) && !e.GoAccessRestarted?) ==> Transitions(log) == []
  {
    if log != [] {
      var front, last := log[..|log| - 1], log[|log| - 1];
      MovesAreTransitions(front);
      assert log == front + [last];
      assert |Transitions(log)| == |Transitions(front)| + if AppMove(last) || last.GoAccessRestarted? then 1 else 0;
    }
  }

  // ------------------------------------------------------------------ the account of a log

  /** What matters about a log: with which challenge it was written, whether the hook found both
      services apart, whether it ran, whether Nginx is switched over, whether the app had moved by
      then, the transitions, and which events there were. */
  datatype Account = Account(
    challenge: Challenge,
    hookClear: bool,
    ran: bool,
    switched: bool,
    early: bool,
    moves: seq<Event>,
    asked: bool,
    stopped: bool,
    removed: bool)

  ghost predicate LogIs(log: seq<Event>, a: Account) {
    && AllClear(log) && Hooks(log, a.ran, a.hookClear) && Transitions(log) == a.moves
    && (CertificateAsked in log <==> a.asked)
    && (GoAccessStopped in log <==> a.stopped)
    && (GoAccessRemoved in log <==> a.removed)
    && (if a.switched then SwitchedOnce(log, a.challenge) && (MovedEarly(log) <==> a.early)
        else NotSwitched(log, a.challenge))
  }

  /** The same, unfolded only where `AccountMeans` asks for it. */
  ghost predicate Accounts(log: seq<Event>, a: Account) {
    forall l {:trigger LogIs(l, a)} :: l == log ==> LogIs(l, a)
  }

  lemma AccountMeans(log: seq<Event>, a: Account)
    requires Accounts(log, a)
    ensures LogIs(log, a)
  {
  }

  /** The event may be the next one. */
  predicate MayCome(a: Account, e: Event) {
    && (e.AppRestarted? || e.GoAccessRestarted? || e.NginxReloaded? ==> e.clear)
    && (e.HookReloaded? ==> e.clear == a.hookClear)
    && (if a.switched then FitsAfter(e, a.challenge) else e.NginxReloaded? || FitsBefore(e, a.challenge))
  }

  function With(a: Account, e: Event): Account {
    match e
    case AppRestarted(_) => a.(moves := a.moves + [e])
    case AppRemoved => a.(moves := a.moves + [e])
    case GoAccessRestarted(_) => a.(moves := a.moves + [e])
    case GoAccessStopped => a.(stopped := true)
    case GoAccessRemoved => a.(removed := true)
    case NginxReloaded(_) => a.(switched := true, early := a.moves != [])
    case HookReloaded(_) => a.(ran := true)
    case CertificateAsked => a.(asked := true)
  }

  lemma NewAccount(challenge: Challenge, hookClear: bool)
    ensures Accounts([], Account(challenge, hookClear, false, false, false, [], false, false, false))
  {
    assert LogIs([], Account(challenge, hookClear, false, false, false, [], false, false, false));
  }

  lemma AppMovesOnly(log: seq<Event>, challenge: Challenge)
    requires NotSwitched(log, challenge)
    ensures Transitions(log) != [] <==> exists e <- log :: AppMove(e)
  {
    MovesAreTransitions(log);
  }

  lemma SwitchAppended(log: seq<Event>, a: Account)
    requires LogIs(log, a) && !a.switched
    ensures SwitchedOnce(log + [NginxReloaded(true)], a.challenge)
    ensures MovedEarly(log + [NginxReloaded(true)]) <==> a.moves != []
  {
    Switching(log, a.challenge);
    AppMovesOnly(log, a.challenge);
  }

  lemma OtherAppended(log: seq<Event>, a: Account, e: Event)
    requires LogIs(log, a) && MayCome(a, e) && !e.NginxReloaded?
    ensures if a.switched then SwitchedOnce(log + [e], a.challenge) && (MovedEarly(log + [e]) <==> a.early)
            else NotSwitched(log + [e], a.challenge)
  {
    if a.switched {
      StillSwitched(log, e, a.challenge);
    } else {
      StillNotSwitched(log, e, a.challenge);
    }
  }

  lemma PlaceAppended(log: seq<Event>, a: Account, e: Event)
    requires LogIs(log, a) && MayCome(a, e)
    ensures var b := With(a, e);
      if b.switched then SwitchedOnce(log + [e], b.challenge) && (MovedEarly(log + [e]) <==> b.early)
      else NotSwitched(log + [e], b.challenge)
  {
    if e.NginxReloaded? {
      SwitchAppended(log, a);
    } else {
      OtherAppended(log, a, e);
    }
  }

  lemma MembersAppended(log: seq<Event>, a: Account, e: Event)
    requires LogIs(log, a)
    ensures var b := With(a, e);
      && (CertificateAsked in log + [e] <==> b.asked)
      && (GoAccessStopped in log + [e] <==> b.stopped)
      && (GoAccessRemoved in log + [e] <==> b.removed)
  {
    assert e in log + [e];
  }

  lemma HooksAppended(log: seq<Event>, ran: bool, clear: bool, e: Event)
    requires Hooks(log, ran, clear) && (e.HookReloaded? ==> e.clear == clear)
    ensures Hooks(log + [e], ran || e.HookReloaded?, clear)
  {
    assert e in log + [e];
  }

  lemma ClearAppended(log: seq<Event>, e: Event)
    requires AllClear(log) && (e.AppRestarted? || e.GoAccessRestarted? || e.NginxReloaded? ==> e.clear)
    ensures AllClear(log + [e])
  {
  }

  lemma MovesAppended(log: seq<Event>, a: Account, e: Event)
    requires Transitions(log) == a.moves
    ensures Transitions(log + [e]) == With(a, e).moves
  {
    assert (log + [e])[..|log|] == log;
    assert Transitions(log) + [] == Transitions(log);
  }

  lemma OneMore(log: seq<Event>, a: Account, e: Event)
    requires Accounts(log, a) && MayCome(a, e)
    ensures Accounts(log + [e], With(a, e))
  {
    AccountMeans(log, a);
    PlaceAppended(log, a, e);
    MembersAppended(log, a, e);
    HooksAppended(log, a.ran, a.hookClear, e);
    ClearAppended(log, e);
    MovesAppended(log, a, e);
    assert LogIs(log + [e], With(a, e));
  }

  /** What an account says about its log. */
  lemma Recount(log: seq<Event>, a: Account)
    requires Accounts(log, a)
    ensures AllClear(log) && Transitions(log) == a.moves
    ensures a.switched ==> SwitchedOnce(log, a.challenge) && (MovedEarly(log) <==> a.early)
    ensures !a.switched ==> NotSwitched(log, a.challenge)
    ensures CertificateAsked in log <==> a.asked
    ensures GoAccessStopped in log <==> a.stopped
    ensures GoAccessRemoved in log <==> a.removed
    ensures forall e <- log :: e.HookReloaded? ==> e.clear == a.hookClear
    ensures a.ran ==> HookReloaded(a.hookClear) in log
  {
    AccountMeans(log, a);
  }

  // ------------------------------------------------------------------ the hand-over

  class Cutover {
    const mode: Mode
    const app: Address
    const goAccessEnabled: bool
    const goAccess: Address
    const challenge: Challenge

    /** Whether lego already holds a certificate for the app. */
    const certified: bool

    var sockets: seq<Socket>
    var log: seq<Event>
    var appPrepared: bool
    var appRemoved: bool
    var listenBlockers: seq<Socket>
    var portBlockers: seq<Socket>

    /** How often a command, or a look at the host, has failed. */
    ghost var troubles: nat

    /** How many of these looks at the host did not matter, because another one gave the answer. */
    ghost var idleLooks: nat

    /** How many of these commands belonged to certificate hooks whose failure lego did not mind. */
    ghost var idleHooks: nat

    /** What the log has come to: see `Account`. */
    ghost var hookClear: bool
    ghost var ran: bool
    ghost var switched: bool
    ghost var early: bool
    ghost var moves: seq<Event>
    ghost var asked: bool
    ghost var stopped: bool
    ghost var removed: bool

    constructor (mode: Mode, app: Address, goAccessEnabled: bool, goAccess: Address, challenge: Challenge,
                 certified: bool, sockets: seq<Socket>)
      ensures this.mode == mode && this.app == app && this.goAccessEnabled == goAccessEnabled
      ensures this.goAccess == goAccess && this.sockets == sockets && log == [] && !appPrepared && !appRemoved
      ensures this.challenge == challenge && this.certified == certified
      ensures troubles == 0 && idleLooks == 0 && idleHooks == 0
    {
      troubles, idleLooks, idleHooks := 0, 0, 0;
      hookClear, ran, switched, early := *, false, false, false;
      moves, asked, stopped, removed := [], false, false, false;
      this.challenge, this.certified := challenge, certified;
      this.mode, this.app, this.goAccessEnabled, this.goAccess := mode, app, goAccessEnabled, goAccess;
      this.sockets, log, appPrepared, appRemoved := sockets, [], false, false;
      listenBlockers, portBlockers := [], [];
    }

    /** What validation guarantees: loopback hosts, and no overlap on one port. */
    predicate Validated() {
      && (mode.Listen? ==> Configurable(app.host))
      && (goAccessEnabled ==> Configurable(goAccess.host))
      && (mode.Listen? && goAccessEnabled && app.port == goAccess.port ==> !Overlap(app.host, goAccess.host))
    }

    /** A command, or a look at the host, that touches no managed service. */
    method Command() returns (ok: bool)
      modifies this`troubles
      ensures troubles == old(troubles) + if ok then 0 else 1
    {
      ok := *;
      if !ok {
        troubles := troubles + 1;
      }
    }

    /** Failures that matter. */
    ghost function Grave(): int
      reads `troubles, `idleLooks, `idleHooks
    {
      troubles - idleLooks - idleHooks
    }

    /** Something unmanaged holds the address. */
    predicate Taken(address: Address)
      reads this`sockets
    {
      exists s <- sockets :: s.owner.Foreign? && s.port == address.port && Overlap(s.host, address.host)
    }

    /** A socket of `owner` is on the address. */
    predicate On(owner: Owner, address: Address)
      reads `sockets
    {
      exists s <- sockets :: s.owner == owner && s.port == address.port && Overlap(s.host, address.host)
    }

    /** GoAccess holds the app's address. */
    predicate AppIsBlocked()
      reads `sockets
    {
      mode.Listen? && On(GoAccess, app)
    }

    /** The app holds the GoAccess address. */
    predicate GoAccessIsBlocked()
      reads `sockets
    {
      goAccessEnabled && On(App, goAccess)
    }

    /** GoAccess sockets on the app's address; anything else there that is not the app stops the deploy. */
    method DetectListenBlockers() returns (blockers: seq<Socket>, detected: bool)
      requires Validated()
      modifies this`troubles, this`idleLooks
      ensures if detected then Grave() == old(Grave()) else mode.Listen? && (Taken(app) || Grave() > old(Grave()))
      ensures troubles >= old(troubles) && idleLooks >= old(idleLooks)
      ensures detected ==> (blockers != [] <==> AppIsBlocked())
      ensures detected && mode.Listen? ==> (blockers == [] ==> Clear(sockets, GoAccess, app))
      ensures forall b <- blockers ::
        mode.Listen? && b in sockets && b.owner.GoAccess? && b.port == app.port && Overlap(b.host, app.host)
    {
      blockers := [];
      if !mode.Listen? {
        return [], true;
      }
      for i := 0 to |sockets|
        invariant Grave() == old(Grave()) && troubles >= old(troubles) && idleLooks >= old(idleLooks)
        invariant forall b <- blockers ::
          b in sockets && b.owner.GoAccess? && b.port == app.port && Overlap(b.host, app.host)
        invariant blockers == [] ==> forall s <- sockets[..i] ::
          s.owner.GoAccess? && s.port == app.port ==> !Overlap(s.host, app.host)
      {
        var s := sockets[i];
        if s.port != app.port || !Overlap(s.host, app.host) {
          continue;
        }
        var known := Command();
        if !known {
          return [], false;
        }
        var appConfirmed := Command();
        if appConfirmed && s.owner.App? {
          continue;
        }
        var confirmed := Command();
        if confirmed && s.owner.GoAccess? {
          idleLooks := idleLooks + if appConfirmed then 0 else 1;
          blockers := blockers + [s];
          continue;
        }
        return [], false;
      }
      assert sockets[..|sockets|] == sockets;
      assert blockers != [] ==> blockers[0] in blockers;
      ClearIfNoOverlap(sockets, GoAccess, app);
      detected := true;
    }

    /** App sockets on the GoAccess address. */
    method DetectPortBlockers() returns (blockers: seq<Socket>, detected: bool)
      requires Validated()
      modifies this`troubles, this`idleLooks
      ensures if detected then Grave() == old(Grave())
              else goAccessEnabled && (Taken(goAccess) || Grave() > old(Grave()))
      ensures troubles >= old(troubles) && idleLooks >= old(idleLooks)
      ensures detected ==> (blockers != [] <==> GoAccessIsBlocked())
      ensures detected && goAccessEnabled ==> (blockers == [] ==> Clear(sockets, App, goAccess))
      ensures forall b <- blockers ::
        goAccessEnabled && b in sockets && b.owner.App? && b.port == goAccess.port && Overlap(b.host, goAccess.host)
    {
      blockers := [];
      if !goAccessEnabled {
        return [], true;
      }
      for i := 0 to |sockets|
        invariant Grave() == old(Grave()) && troubles >= old(troubles) && idleLooks >= old(idleLooks)
        invariant forall b <- blockers ::
          b in sockets && b.owner.App? && b.port == goAccess.port && Overlap(b.host, goAccess.host)
        invariant blockers == [] ==> forall s <- sockets[..i] ::
          s.owner.App? && s.port == goAccess.port ==> !Overlap(s.host, goAccess.host)
      {
        var s := sockets[i];
        if s.port != goAccess.port || !Overlap(s.host, goAccess.host) {
          continue;
        }
        var known := Command();
        if !known {
          return [], false;
        }
        var confirmed := Command();
        if confirmed && s.owner.App? {
          blockers := blockers + [s];
          continue;
        }
        var goAccessConfirmed := Command();
        if goAccessConfirmed && s.owner.GoAccess? {
          idleLooks := idleLooks + if confirmed then 0 else 1;
          continue;
        }
        return [], false;
      }
      assert sockets[..|sockets|] == sockets;
      assert blockers != [] ==> blockers[0] in blockers;
      ClearIfNoOverlap(sockets, App, goAccess);
      detected := true;
    }

    /** Sockets other than those of `owner` are as before. */
    twostate predicate Others(owner: Owner)
      reads `sockets
    {
      forall s: Socket :: s.owner != owner ==> (s in sockets <==> s in old(sockets))
    }

    ghost function Story(): Account
      reads `hookClear, `ran, `switched, `early, `moves, `asked, `stopped, `removed
    {
      Account(challenge, hookClear, ran, switched, early, moves, asked, stopped, removed)
    }

    /** The log is accounted for. */
    ghost predicate Told()
      reads `log, `hookClear, `ran, `switched, `early, `moves, `asked, `stopped, `removed
    {
      Accounts(log, Story())
    }

    method StopGoAccess() returns (ok: bool)
      requires Told() && !switched
      modifies this`sockets, this`log, this`stopped, this`troubles
      ensures Told() && stopped
      ensures Others(GoAccess) && (ok ==> forall s <- sockets :: s.owner != GoAccess)
      ensures if ok then troubles == old(troubles) else troubles > old(troubles)
    {
      OneMore(log, Story(), GoAccessStopped);
      log, stopped := log + [GoAccessStopped], true;
      ok := Command();
      if ok {
        sockets := Without(sockets, GoAccess);
      }
    }

    /** The sockets a service opens sooner or later for the address it is configured for. */
    method Opened(address: Address, owner: Owner) returns (taken: seq<Socket>)
      ensures forall s <- taken :: s.owner == owner && s.port == address.port && s.host in Opens(address.host)
    {
      var literal, four, six: bool := *, *, *;
      if address.host.Localhost? {
        taken := (if four then [Socket(LOOPBACK4, address.port, owner)] else [])
                  + (if six then [Socket(LOOPBACK6, address.port, owner)] else []);
      } else {
        taken := if literal then [Socket(address.host, address.port, owner)] else [];
      }
    }

    /** `systemctl enable` and `systemctl restart` of the app: it lets its sockets go and opens those
        it is configured for. */
    method RestartApp() returns (ok: bool)
      requires Told() && moves == [] && Clear(sockets, GoAccess, app)
      modifies this`sockets, this`log, this`moves, this`troubles
      ensures Told() && Others(App)
      ensures moves == [AppRestarted(true)] || (!ok && moves == [])
      ensures ok ==> Settled(sockets, App, app)
      ensures if ok then troubles == old(troubles) else troubles > old(troubles)
    {
      ok := Command();
      if !ok {
        return;
      }
      var e := AppRestarted(Clear(sockets, GoAccess, app));
      OneMore(log, Story(), e);
      assert moves + [e] == [e];
      log, moves := log + [e], [e];
      sockets := Without(sockets, App);
      ok := Command();
      if ok {
        var taken := Opened(app, App);
        sockets := sockets + taken;
      }
    }

    /** Disable, stop and delete the app's unit, and reload systemd. */
    method RemoveApp() returns (ok: bool)
      requires Told() && moves == []
      modifies this`sockets, this`log, this`moves, this`troubles
      ensures Told() && Others(App)
      ensures moves == [AppRemoved] || (!ok && moves == [])
      ensures ok ==> forall s <- sockets :: s.owner != App
      ensures if ok then troubles == old(troubles) else troubles > old(troubles)
    {
      ok := Command();
      if !ok {
        return;
      }
      OneMore(log, Story(), AppRemoved);
      assert moves + [AppRemoved] == [AppRemoved];
      log, moves := log + [AppRemoved], [AppRemoved];
      sockets := Without(sockets, App);
      ok := Command();
    }

    method RestartGoAccess() returns (ok: bool)
      requires Told() && switched && Clear(sockets, App, goAccess)
      modifies this`sockets, this`log, this`moves, this`troubles
      ensures Told() && Others(GoAccess)
      ensures moves == old(moves) + [GoAccessRestarted(true)] || (!ok && moves == old(moves))
      ensures ok ==> Settled(sockets, GoAccess, goAccess)
      ensures if ok then troubles == old(troubles) else troubles > old(troubles)
    {
      ok := Command();
      if !ok {
        return;
      }
      var e := GoAccessRestarted(Clear(sockets, App, goAccess));
      OneMore(log, Story(), e);
      log, moves := log + [e], moves + [e];
      sockets := Without(sockets, GoAccess);
      ok := Command();
      if ok {
        var taken := Opened(goAccess, GoAccess);
        sockets := sockets + taken;
      }
    }

    method RemoveGoAccess() returns (ok: bool)
      requires Told() && switched
      modifies this`sockets, this`log, this`removed, this`troubles
      ensures Told() && Others(GoAccess) && forall s <- sockets :: s in old(sockets)
      ensures ok ==> removed && forall s <- sockets :: s.owner != GoAccess
      ensures if ok then troubles == old(troubles) else troubles > old(troubles)
    {
      ok := Command();
      if ok {
        OneMore(log, Story(), GoAccessRemoved);
        log, removed := log + [GoAccessRemoved], true;
        sockets := Without(sockets, GoAccess);
        ok := Command();
      }
    }

    /** Neither managed service is on an address the other is configured for. */
    predicate Apart()
      reads `sockets
    {
      && (mode.Listen? ==> Clear(sockets, GoAccess, app))
      && (goAccessEnabled ==> Clear(sockets, App, goAccess))
    }

    method ReloadNginx() returns (ok: bool)
      requires Told() && !switched && Apart()
      modifies this`log, this`switched, this`early, this`troubles
      ensures Told() && switched && (early <==> moves != [])
      ensures if ok then troubles == old(troubles) else troubles > old(troubles)
    {
      var e := NginxReloaded(Apart());
      OneMore(log, Story(), e);
      log, switched, early := log + [e], true, moves != [];
      ok := Command();
    }

    // ---------------------------------------------------------------- the deploy's closures

    /** What a successful deploy does to services, in this order. */
    function Plan(): seq<Event> {
      if goAccessEnabled then [First(), GoAccessRestarted(true)] else [First()]
    }

    /** What it does to the app. */
    function First(): Event {
      if mode.Listen? then AppRestarted(true) else AppRemoved
    }

    /** So much of the plan. */
    predicate Begun(moves: seq<Event>) {
      moves == [] || moves == [First()] || moves == Plan()
    }

    /** The app has been restarted, or removed, for the new configuration. */
    predicate AppDone()
      reads `appPrepared, `appRemoved
    {
      if mode.Listen? then appPrepared else appRemoved
    }

    /** Something has to move before Nginx is switched over. */
    predicate Blocked()
      reads `listenBlockers, `portBlockers
    {
      listenBlockers != [] || portBlockers != []
    }

    /** The log is accounted for.  The transitions are the first of the plan, Nginx has not been
        switched over before what had to move had moved, and GoAccess was stopped only if it had to. */
    ghost predicate Orderly()
      reads `log, `hookClear, `ran, `switched, `early, `moves, `asked, `stopped, `removed
      reads `listenBlockers, `portBlockers
    {
      && Told() && Begun(moves)
      && (switched ==> (early <==> Blocked()))
      && (stopped ==> listenBlockers != [])
    }

    ghost predicate Valid()
      reads `log, `hookClear, `ran, `switched, `early, `moves, `asked, `stopped, `removed
      reads `sockets, `appPrepared, `appRemoved, `listenBlockers, `portBlockers
    {
      && Validated() && Orderly()
      && moves == (if AppDone() then [First()] else [])
      && (AppDone() ==> if mode.Listen? then Settled(sockets, App, app) else forall s <- sockets :: s.owner != App)
      && (listenBlockers == [] && mode.Listen? ==> Clear(sockets, GoAccess, app))
      && (portBlockers == [] && goAccessEnabled ==> Clear(sockets, App, goAccess))
      && (mode.Upstream? ==> listenBlockers == [] && !appPrepared)
      && (mode.Listen? ==> !appRemoved)
    }

    /** Once the app is settled or gone it is off the GoAccess address. */
    lemma DoneIsClear()
      requires Valid() && AppDone() && goAccessEnabled
      ensures Clear(sockets, App, goAccess)
    {
      if mode.Listen? {
        SettledIsClear(sockets, App, app, goAccess);
      }
    }

    method StartAppBeforeCutover() returns (ok: bool)
      requires Valid() && mode.Listen? && Clear(sockets, GoAccess, app)
      modifies this`sockets, this`log, this`moves, this`appPrepared, this`troubles
      ensures Orderly() && Others(App)
      ensures ok ==> Valid() && appPrepared && Clear(sockets, GoAccess, app)
      ensures if ok then troubles == old(troubles) else troubles > old(troubles)
    {
      if appPrepared {
        return true;
      }
      ok := RestartApp();
      appPrepared := ok;
      OthersStay(old(sockets), sockets, GoAccess, app);
      if ok && goAccessEnabled {
        SettledIsClear(sockets, App, app, goAccess);
      }
    }

    method RemoveAppBeforeCutover() returns (ok: bool)
      requires Valid() && mode.Upstream?
      modifies this`sockets, this`log, this`moves, this`appRemoved, this`troubles
      ensures Orderly() && Others(App)
      ensures ok ==> Valid() && appRemoved
      ensures if ok then troubles == old(troubles) else troubles > old(troubles)
    {
      if appRemoved {
        return true;
      }
      ok := RemoveApp();
      appRemoved := ok;
      if ok {
        GoneIsClear(sockets, App, goAccess);
      }
    }

    /** GoAccess sits on the app's new address: stop it, and let the app take the address over. */
    method ClearListenBlockers() returns (ok: bool)
      requires Valid() && !AppDone() && !switched
      modifies this`sockets, this`log, this`moves, this`stopped, this`appPrepared, this`troubles
      ensures Orderly() && !switched
      ensures ok ==> Valid() && (mode.Listen? ==> Clear(sockets, GoAccess, app))
      ensures ok ==> (AppDone() <==> listenBlockers != []) && (listenBlockers != [] ==> stopped)
      ensures if ok then troubles == old(troubles) else troubles > old(troubles)
    {
      if |listenBlockers| == 0 {
        return true;
      }
      ok := StopGoAccess();
      if ok {
        GoneIsClear(sockets, GoAccess, app);
        OthersStay(old(sockets), sockets, App, goAccess);
        ok := StartAppBeforeCutover();
      }
    }

    /** The app sits on the new GoAccess address: restart it elsewhere, or remove it. */
    method ClearPortBlockers() returns (ok: bool)
      requires Valid() && (mode.Listen? ==> Clear(sockets, GoAccess, app))
      requires AppDone() <==> listenBlockers != []
      modifies this`sockets, this`log, this`moves, this`appPrepared, this`appRemoved, this`troubles
      ensures Orderly()
      ensures ok ==> Valid() && Apart() && (AppDone() <==> Blocked())
      ensures if ok then troubles == old(troubles) else troubles > old(troubles)
    {
      if |portBlockers| == 0 || appPrepared || appRemoved {
        if goAccessEnabled && AppDone() {
          DoneIsClear();
        }
        return true;
      }
      match mode {
        case Listen => ok := StartAppBeforeCutover();
        case Upstream => ok := RemoveAppBeforeCutover();
      }
      if ok && goAccessEnabled {
        DoneIsClear();
      }
    }

    method ClearBlockers() returns (ok: bool)
      requires Valid() && !AppDone() && !switched
      modifies this`sockets, this`log, this`moves, this`stopped, this`appPrepared, this`appRemoved, this`troubles
      ensures Orderly() && !switched
      ensures ok ==> Valid() && Apart() && (AppDone() <==> Blocked()) && (listenBlockers != [] ==> stopped)
      ensures if ok then troubles == old(troubles) else troubles > old(troubles)
    {
      ok := Command();
      if ok {
        ok := ClearListenBlockers();
      }
      if ok {
        ok := ClearPortBlockers();
      }
    }

    method ActivateBeforeReload() returns (ok: bool)
      requires Valid() && !AppDone() && !switched
      modifies this`sockets, this`log, this`moves, this`stopped, this`switched, this`early
      modifies this`appPrepared, this`appRemoved, this`troubles
      ensures Orderly()
      ensures ok ==> Valid() && Apart() && switched && (listenBlockers != [] ==> stopped)
      ensures if ok then troubles == old(troubles) else troubles > old(troubles)
    {
      ok := ClearBlockers();
      if ok {
        ok := ReloadNginx();
      }
    }

    /** Remove GoAccess if it is switched off. */
    method CleanUpGoAccess() returns (ok: bool)
      requires Valid() && Apart() && switched
      modifies this`sockets, this`log, this`removed, this`troubles
      ensures Valid() && Apart()
      ensures ok && !goAccessEnabled ==> removed && forall s <- sockets :: s.owner != GoAccess
      ensures if ok then troubles == old(troubles) else troubles > old(troubles)
    {
      ok := true;
      if !goAccessEnabled {
        ok := RemoveGoAccess();
        if mode.Listen? {
          FewerAreClear(old(sockets), sockets, GoAccess, app);
        }
      }
    }

    /** Restart or remove the app if the cut-over has not done it. */
    method FinishApp() returns (ok: bool)
      requires Valid() && Apart()
      modifies this`sockets, this`log, this`moves, this`appPrepared, this`appRemoved, this`troubles
      ensures Orderly() && Others(App)
      ensures ok ==> Valid() && AppDone()
      ensures if ok then troubles == old(troubles) else troubles > old(troubles)
    {
      ok := true;
      if mode.Upstream? && !appRemoved {
        ok := RemoveAppBeforeCutover();
      }
      if mode.Listen? && !appPrepared {
        ok := StartAppBeforeCutover();
      }
    }

    /** What the services hold after a successful deploy. */
    predicate Done()
      reads `sockets
    {
      && (if mode.Listen? then Settled(sockets, App, app) else forall s <- sockets :: s.owner != App)
      && (if goAccessEnabled then Settled(sockets, GoAccess, goAccess) else forall s <- sockets :: s.owner != GoAccess)
    }

    /** After the cut-over: the app, and last GoAccess. */
    method Finish() returns (ok: bool)
      requires Valid() && Apart() && switched
      requires !goAccessEnabled ==> forall s <- sockets :: s.owner != GoAccess
      modifies this`sockets, this`log, this`moves, this`appPrepared, this`appRemoved, this`troubles
      ensures Orderly()
      ensures ok ==> moves == Plan() && Done()
      ensures if ok then troubles == old(troubles) else troubles > old(troubles)
    {
      ok := FinishApp();
      if ok && goAccessEnabled {
        DoneIsClear();
        ok := RestartGoAccess();
      }
    }

    /** The hook comes before the switch-over with DNS-01, and after it with HTTP-01; it always finds
        `hookClear` says. */
    ghost predicate HookTime()
      reads `sockets, `hookClear, `switched
    {
      (Apart() <==> hookClear) && (switched <==> challenge.HTTP01?)
    }

    /** The certificate hook: copy the certificate, test, and let Nginx reload. */
    method RunHook() returns (ok: bool)
      requires Told() && HookTime()
      modifies this`log, this`ran, this`troubles
      ensures Told()
      ensures ok || old(ran) ==> ran
      ensures if ok then troubles == old(troubles) else troubles > old(troubles)
    {
      ok := Command();
      if ok {
        var e := HookReloaded(Apart());
        OneMore(log, Story(), e);
        log, ran := log + [e], true;
        ok := Command();
      }
    }

    /** Obtain or renew the certificate.  The hook runs at once if there is a certificate, and again
        for a new one. */
    method IssueCertificate() returns (ok: bool)
      requires Told() && HookTime()
      modifies this`log, this`ran, this`asked, this`troubles, this`idleHooks
      ensures Told()
      ensures ok ==> asked && (certified ==> ran)
      ensures if ok then Grave() == old(Grave()) else Grave() > old(Grave())
    {
      ok := Command();
      if ok && certified {
        ok := RunHook();
      }
      if ok {
        ok := RunLego();
      }
    }

    /** The hook of a new certificate. */
    method RunLegoHook()
      requires Told() && HookTime()
      modifies this`log, this`ran, this`troubles, this`idleHooks
      ensures Told() && (old(ran) ==> ran)
      ensures Grave() == old(Grave())
    {
      ghost var before := troubles;
      var _ := RunHook();
      idleHooks := idleHooks + troubles - before;
    }

    /** Lego itself; whether it minds that the hook fails is left open. */
    method RunLego() returns (ok: bool)
      requires Told() && HookTime()
      modifies this`log, this`ran, this`asked, this`troubles, this`idleHooks
      ensures Told()
      ensures (ok ==> asked) && (old(ran) ==> ran)
      ensures if ok then Grave() == old(Grave()) else Grave() > old(Grave())
    {
      var issued: bool := *;
      if issued {
        RunLegoHook();
      }
      ok := Command();
      if ok {
        OneMore(log, Story(), CertificateAsked);
        log, asked := log + [CertificateAsked], true;
      }
    }

    /** With DNS-01 the certificate comes before the cut-over, with HTTP-01 after it. */
    method Activate() returns (ok: bool)
      requires Valid() && !AppDone() && !switched
      requires hookClear <==> challenge.HTTP01? || Apart()
      modifies this`sockets, this`log, this`moves, this`stopped, this`switched, this`early, this`removed
      modifies this`ran, this`asked, this`appPrepared, this`appRemoved, this`troubles, this`idleHooks
      ensures Orderly()
      ensures ok ==> Valid() && Apart() && switched && asked && (certified ==> ran)
      ensures ok ==> (listenBlockers != [] ==> stopped)
      ensures ok && !goAccessEnabled ==> removed && forall s <- sockets :: s.owner != GoAccess
      ensures if ok then Grave() == old(Grave()) else Grave() > old(Grave())
    {
      if challenge.DNS01? {
        ok := IssueCertificate();
        if !ok {
          return;
        }
      }
      ok := SwitchOver();
      if ok && challenge.HTTP01? {
        ok := IssueCertificate();
      }
    }

    /** Clear the way, let Nginx reload, and remove GoAccess if it is switched off. */
    method SwitchOver() returns (ok: bool)
      requires Valid() && !AppDone() && !switched
      modifies this`sockets, this`log, this`moves, this`stopped, this`switched, this`early, this`removed
      modifies this`appPrepared, this`appRemoved, this`troubles
      ensures Orderly()
      ensures ok ==> Valid() && Apart() && switched && (listenBlockers != [] ==> stopped)
      ensures ok && !goAccessEnabled ==> removed && forall s <- sockets :: s.owner != GoAccess
      ensures if ok then troubles == old(troubles) else troubles > old(troubles)
    {
      ok := ActivateBeforeReload();
      if ok {
        ok := CleanUpGoAccess();
      }
    }

    /** A deploy.  Whatever addresses the two services held before: every restart finds the other one
        out of the way, and so does Nginx when it is switched over; and a deploy that succeeds
        restarts the app exactly once, or removes it exactly once, and only then restarts GoAccess.
        It fails only if a command fails or something unmanaged holds an address, and it succeeds
        only if none fails that matters.

        Nginx is switched over exactly once by a deploy that succeeds, before GoAccess is restarted or
        removed, after the certificate with DNS-01 and before it with HTTP-01.  The app is moved before
        that exactly if one of the services held the new address of the other, and GoAccess is stopped
        exactly if it held the app's.  In the end each service is where it is configured, or gone.

        The certificate hook also reloads Nginx.  It finds both services out of each other's way
        exactly if it comes after the cut-over, with HTTP-01, or there was nothing to hand over. */
    method Deploy() returns (ok: bool)
      requires Validated() && log == [] && !appPrepared && !appRemoved
      modifies this
      ensures AllClear(log) && Transitions(log) <= Plan()
      ensures ok ==> Transitions(log) == Plan() && Done()
      ensures ok ==> SwitchedOnce(log, challenge) && CertificateAsked in log
      ensures SwitchedOnce(log, challenge) || NotSwitched(log, challenge)
      ensures ok ==> (MovedEarly(log) <==> old(AppIsBlocked()) || old(GoAccessIsBlocked()))
      ensures ok ==> (GoAccessStopped in log <==> old(AppIsBlocked()))
      ensures ok && !goAccessEnabled ==> GoAccessRemoved in log
      ensures forall e <- log :: e.HookReloaded? ==> (e.clear <==> challenge.HTTP01? || old(Apart()))
      ensures ok && certified ==> HookReloaded(challenge.HTTP01? || old(Apart())) in log
      ensures !ok ==>
        Grave() > old(Grave()) || (mode.Listen? && old(Taken(app))) || (goAccessEnabled && old(Taken(goAccess)))
      ensures ok ==> Grave() == old(Grave())
    {
      BeginAccount();
      ok := Proceed();
      Recount(log, Story());
    }

    /** Nothing has happened yet; with HTTP-01 the hook finds what the cut-over leaves. */
    ghost method BeginAccount()
      requires log == []
      modifies this`hookClear, this`ran, this`switched, this`early, this`moves, this`asked, this`stopped, this`removed
      ensures Told() && moves == [] && !switched && !stopped && (hookClear <==> challenge.HTTP01? || Apart())
    {
      hookClear, ran, switched, early := challenge.HTTP01? || Apart(), false, false, false;
      moves, asked, stopped, removed := [], false, false, false;
      NewAccount(challenge, hookClear);
    }

    /** The deploy, as the account tells it. */
    method Proceed() returns (ok: bool)
      requires Validated() && Told() && !appPrepared && !appRemoved && moves == [] && !switched && !stopped
      requires hookClear <==> challenge.HTTP01? || Apart()
      modifies this`sockets, this`log, this`appPrepared, this`appRemoved, this`listenBlockers, this`portBlockers
      modifies this`troubles, this`idleLooks, this`idleHooks
      modifies this`ran, this`switched, this`early, this`moves, this`asked, this`stopped, this`removed
      ensures Told() && Begun(moves)
      ensures ok ==> moves == Plan() && Done() && switched && asked && (certified ==> ran)
      ensures ok ==> (early <==> old(AppIsBlocked()) || old(GoAccessIsBlocked()))
      ensures ok ==> (stopped <==> old(AppIsBlocked()))
      ensures ok && !goAccessEnabled ==> removed
      ensures ok ==> Grave() == old(Grave())
      ensures !ok ==>
        Grave() > old(Grave()) || (mode.Listen? && old(Taken(app))) || (goAccessEnabled && old(Taken(goAccess)))
    {
      ok := Detect();
      if ok {
        ok := Activate();
      }
      if ok {
        ok := Finish();
      }
    }

    /** Look for what stands in the way. */
    method Detect() returns (ok: bool)
      requires Validated() && !appPrepared && !appRemoved
      requires Told() && moves == []
      requires !switched && !stopped
      modifies this`listenBlockers, this`portBlockers, this`troubles, this`idleLooks
      ensures Orderly()
      ensures if ok then Valid() && Grave() == old(Grave())
              else Grave() > old(Grave()) || (mode.Listen? && Taken(app)) || (goAccessEnabled && Taken(goAccess))
      ensures ok ==> (listenBlockers != [] <==> AppIsBlocked()) && (portBlockers != [] <==> GoAccessIsBlocked())
    {
      listenBlockers, ok := DetectListenBlockers();
      if !ok {
        return;
      }
      portBlockers, ok := DetectPortBlockers();
      assert mode.Upstream? ==> forall b <- listenBlockers :: false;
      assert listenBlockers == [] || listenBlockers[0] in listenBlockers;
    }
  }

  lemma GoneIsClear(sockets: seq<Socket>, owner: Owner, address: Address)
    requires forall s <- sockets :: s.owner != owner
    ensures Clear(sockets, owner, address)
  {
    ClearMeans(sockets, owner, address);
  }

  lemma FewerAreClear(before: seq<Socket>, after: seq<Socket>, owner: Owner, address: Address)
    requires Clear(before, owner, address) && forall s <- after :: s in before
    ensures Clear(after, owner, address)
  {
    ClearMeans(before, owner, address);
    ClearMeans(after, owner, address);
  }

  lemma ClearIfNoOverlap(sockets: seq<Socket>, owner: Owner, address: Address)
    requires Configurable(address.host)
    ensures (forall s <- sockets :: s.owner == owner && s.port == address.port ==> !Overlap(s.host, address.host))
      ==> Clear(sockets, owner, address)
  {
    forall s, bound | s in sockets && bound in Opens(address.host) && Clash(s.host, bound)
      ensures Overlap(s.host, address.host)
    {
      OverlapCoversClash(s.host, address.host, bound);
    }
    ClearMeans(sockets, owner, address);
  }

  /** A settled service leaves a non-overlapping address clear. */
  lemma SettledIsClear(sockets: seq<Socket>, owner: Owner, own: Address, other: Address)
    requires Settled(sockets, owner, own) && Configurable(own.host) && Configurable(other.host)
    requires own.port == other.port ==> !Overlap(own.host, other.host)
    ensures Clear(sockets, owner, other)
  {
    forall s, bound | s in sockets && s.owner == owner && s.port == other.port && bound in Opens(other.host)
      ensures !Clash(s.host, bound)
    {
      ConfiguredApart(own.host, other.host, s.host, bound);
    }
    ClearMeans(sockets, owner, other);
  }
}
