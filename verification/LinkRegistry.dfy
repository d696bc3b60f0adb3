/**
 The link manager of internal/link/manager.go with the connection handlers that use it (internal/websocket_server.go
 lines 255-273): links are registered under their user's identity, the map and the counter are updated by separate
 atomic operations, and any number of handlers, cleaners and closers interleave.
 */
module LinkRegistry {
  import opened Common
  import opened Keys

  datatype User = User(bizID: int, userID: int)

  function IDOf(u: User): string {
    LinkID(u.bizID, u.userID)
  }

  /** Links are identities; `owner` gives the user of every link ever made, `open` the links whose handler still runs.
      `adders` and `subtractors` have changed the map but not the counter; `overwritten` counts lost entries. */
  datatype State = State(
    links: map<string, nat>,
    len: int,
    owner: map<nat, User>,
    open: set<nat>,
    adders: set<nat>,
    subtractors: set<nat>,
    overwritten: nat)

  function Init(): State {
    State(map[], 0, map[], {}, {}, {}, 0)
  }

  datatype Action =
    | Store(t: nat, link: nat, user: User)   // NewLink, line 87
    | Count(t: nat)                          // NewLink, line 92
    | Leave(t: nat, link: nat)               // a handler ends: RemoveLink(lk.ID())
    | Remove(t: nat, id: string)             // CleanIdleLinks and Close
    | Subtract(t: nat)                       // RemoveLink, line 150

  predicate Enabled(s: State, a: Action) {
    match a
    case Store(t, link, _) => t !in s.adders && link !in s.owner
    case Count(t) => t in s.adders
    case Leave(t, link) => t !in s.subtractors && link in s.open && link in s.owner
    case Remove(t, _) => t !in s.subtractors
    case Subtract(t) => t in s.subtractors
  }

  function StoreStep(s: State, t: nat, link: nat, user: User): State {
    s.(links := s.links[IDOf(user) := link], owner := s.owner[link := user], open := s.open + {link},
       adders := s.adders + {t}, overwritten := s.overwritten + if IDOf(user) in s.links then 1 else 0)
  }

  /** LoadAndDelete, line 145. */
  function RemoveStep(s: State, t: nat, id: string): State {
    if id in s.links then s.(links := s.links - {id}, subtractors := s.subtractors + {t}) else s
  }

  function Step(s: State, a: Action): State
    requires Enabled(s, a)
  {
    match a
    case Store(t, link, user) => StoreStep(s, t, link, user)
    case Count(t) => s.(len := s.len + 1, adders := s.adders - {t})
    case Leave(t, link) => RemoveStep(s, t, IDOf(s.owner[link])).(open := s.open - {link})
    case Remove(t, id) => RemoveStep(s, t, id)
    case Subtract(t) => s.(len := s.len - 1, subtractors := s.subtractors - {t})
  }

  predicate CanRun(s: State, acts: seq<Action>)
    decreases |acts|
  {
    acts == [] || (Enabled(s, acts[0]) && CanRun(Step(s, acts[0]), acts[1..]))
  }

  function Run(s: State, acts: seq<Action>): State
    requires CanRun(s, acts)
    decreases |acts|
  {
    if acts == [] then s else Run(Step(s, acts[0]), acts[1..])
  }

  // ----- what Len counts

  ghost predicate Accounted(s: State) {
    s.len + |s.adders| - |s.subtractors| == |s.links| + s.overwritten
  }

  lemma RemoveAccounted(s: State, t: nat, id: string)
    requires Accounted(s) && t !in s.subtractors
    ensures Accounted(RemoveStep(s, t, id))
  {
    if id in s.links {
      MapShrinks(s.links, id);
    }
  }

  lemma StepAccounted(s: State, a: Action)
    requires Accounted(s) && Enabled(s, a)
    ensures Accounted(Step(s, a)) && Step(s, a).overwritten >= s.overwritten
  {
    hide IDOf;
    match a {
      case Store(_, link, user) => MapGrows(s.links, IDOf(user), link);
      case Leave(t, link) => RemoveAccounted(s, t, IDOf(s.owner[link]));
      case Remove(t, id) => RemoveAccounted(s, t, id);
      case _ =>
    }
  }

  predicate Quiescent(s: State) {
    s.adders == {} && s.subtractors == {}
  }

  /** Over all runs the counter is the number of registered links, plus the calls of NewLink that overwrote a live
      entry, corrected by the operations in flight. Each overwrite is counted for good: the drift never heals. */
  lemma {:induction false} LenCountsLinksAndOverwrites(s: State, acts: seq<Action>)
    requires Accounted(s) && CanRun(s, acts)
    ensures var s' := Run(s, acts);
            && s'.len + |s'.adders| - |s'.subtractors| == |s'.links| + s'.overwritten
            && s'.overwritten >= s.overwritten
    decreases |acts|
  {
    if acts != [] {
      StepAccounted(s, acts[0]);
      LenCountsLinksAndOverwrites(Step(s, acts[0]), acts[1..]);
    }
  }

  /** At rest, Len is exact exactly if no entry was ever overwritten; and Close may return early on a zero counter,
      because then nothing is registered. */
  lemma LenAtRest(acts: seq<Action>)
    requires CanRun(Init(), acts) && Quiescent(Run(Init(), acts))
    ensures var s := Run(Init(), acts);
            && (s.len == |s.links| <==> s.overwritten == 0)
            && (s.len == 0 <==> s.links == map[] && s.overwritten == 0)
  {
    LenCountsLinksAndOverwrites(Init(), acts);
    var s := Run(Init(), acts);
    assert |s.links| == |s.links.Keys|;
    if s.len == 0 {
      assert s.links.Keys == {};
    }
  }

  /** Every NewLink found no entry under its user's identity. */
  predicate StoresFresh(s: State, acts: seq<Action>)
    requires CanRun(s, acts)
    decreases |acts|
  {
    acts == []
    || ((acts[0].Store? ==> IDOf(acts[0].user) !in s.links) && StoresFresh(Step(s, acts[0]), acts[1..]))
  }

  lemma {:induction false} OverwritesIff(s: State, acts: seq<Action>)
    requires CanRun(s, acts)
    ensures Run(s, acts).overwritten >= s.overwritten
    ensures Run(s, acts).overwritten == s.overwritten <==> StoresFresh(s, acts)
    decreases |acts|
  {
    hide IDOf;
    if acts != [] {
      OverwritesIff(Step(s, acts[0]), acts[1..]);
    }
  }

  /** At rest, Len is exact if and only if no NewLink ever found an entry of its user: it takes one connection that is
      opened before the entry of the previous one was removed to spoil the counter for good. */
  lemma LenExactIff(acts: seq<Action>)
    requires CanRun(Init(), acts) && Quiescent(Run(Init(), acts))
    ensures Run(Init(), acts).len == |Run(Init(), acts).links| <==> StoresFresh(Init(), acts)
  {
    LenCountsLinksAndOverwrites(Init(), acts);
    OverwritesIff(Init(), acts);
  }

  // ----- who is found

  /** Every entry leads to a link of the user it is filed under. */
  ghost predicate Filed(s: State) {
    && (forall id :: id in s.links ==> s.links[id] in s.owner && IDOf(s.owner[s.links[id]]) == id)
    && (forall link :: link in s.open ==> link in s.owner)
  }

  lemma {:induction false} RunFiled(s: State, acts: seq<Action>)
    requires Filed(s) && CanRun(s, acts)
    ensures Filed(Run(s, acts))
    decreases |acts|
  {
    if acts != [] {
      StepFiled(s, acts[0]);
      RunFiled(Step(s, acts[0]), acts[1..]);
    }
  }

  lemma StepFiled(s: State, a: Action)
    requires Filed(s) && Enabled(s, a)
    ensures Filed(Step(s, a))
  {
    hide IDOf;
  }

  /** FindLinkByUserInfo never returns somebody else's link. */
  lemma FindReturnsOwnLink(acts: seq<Action>, user: User)
    requires CanRun(Init(), acts) && IDOf(user) in Run(Init(), acts).links
    ensures var s := Run(Init(), acts); s.links[IDOf(user)] in s.owner && s.owner[s.links[IDOf(user)]] == user
  {
    RunFiled(Init(), acts);
    var s := Run(Init(), acts);
    var found := s.owner[s.links[IDOf(user)]];
    LinkIDInjective(found.bizID, found.userID, user.bizID, user.userID);
  }

  /** A user connects again only after the handler of the previous connection has ended. */
  predicate OneSession(s: State, a: Action) {
    a.Store? ==> forall link :: link in s.open && link in s.owner ==> s.owner[link] != a.user
  }

  predicate OneSessionRun(s: State, acts: seq<Action>)
    requires CanRun(s, acts)
    decreases |acts|
  {
    acts == [] || (OneSession(s, acts[0]) && OneSessionRun(Step(s, acts[0]), acts[1..]))
  }

  /** Registered links are open, users have one open link each, and nothing was overwritten. */
  ghost predicate Exclusive(s: State) {
    && Filed(s) && s.overwritten == 0
    && (forall id :: id in s.links ==> s.links[id] in s.open)
    && (forall a, b :: a in s.open && b in s.open && s.owner[a] == s.owner[b] ==> a == b)
  }

  lemma StoreExclusive(s: State, t: nat, link: nat, user: User)
    requires Exclusive(s) && Enabled(s, Store(t, link, user)) && OneSession(s, Store(t, link, user))
    ensures Exclusive(StoreStep(s, t, link, user))
  {
    if IDOf(user) in s.links {
      var found := s.owner[s.links[IDOf(user)]];
      LinkIDInjective(found.bizID, found.userID, user.bizID, user.userID);
    }
    hide IDOf;
  }

  lemma LeaveExclusive(s: State, t: nat, link: nat)
    requires Exclusive(s) && Enabled(s, Leave(t, link))
    ensures Exclusive(Step(s, Leave(t, link)))
    ensures IDOf(s.owner[link]) in s.links ==> s.links[IDOf(s.owner[link])] == link
  {
    var id := IDOf(s.owner[link]);
    if id in s.links {
      var found, user := s.owner[s.links[id]], s.owner[link];
      LinkIDInjective(found.bizID, found.userID, user.bizID, user.userID);
    }
    hide IDOf;
    StepFiled(s, Leave(t, link));
    forall k | k in s.links && k != id ensures s.links[k] != link {}
  }

  lemma StepExclusive(s: State, a: Action)
    requires Exclusive(s) && Enabled(s, a) && OneSession(s, a)
    ensures Exclusive(Step(s, a))
  {
    hide IDOf;
    match a {
      case Store(t, link, user) => StoreExclusive(s, t, link, user);
      case Leave(t, link) => LeaveExclusive(s, t, link);
      case _ => StepFiled(s, a);
    }
  }

  /** If users never hold two connections at once, no handler removes another connection's entry and Len is exact
      whenever nothing is in flight. */
  lemma {:induction false} OneSessionIsExact(s: State, acts: seq<Action>)
    requires Exclusive(s) && Accounted(s) && CanRun(s, acts) && OneSessionRun(s, acts)
    ensures var s' := Run(s, acts);
            && Exclusive(s')
            && (Quiescent(s') ==> s'.len == |s'.links|)
            && forall link :: link in s'.open && IDOf(s'.owner[link]) in s'.links ==> s'.links[IDOf(s'.owner[link])] == link
    decreases |acts|
  {
    if acts == [] {
      forall link | link in s.open && IDOf(s.owner[link]) in s.links ensures s.links[IDOf(s.owner[link])] == link {
        var found, user := s.owner[s.links[IDOf(s.owner[link])]], s.owner[link];
        LinkIDInjective(found.bizID, found.userID, user.bizID, user.userID);
      }
    } else {
      StepExclusive(s, acts[0]);
      StepAccounted(s, acts[0]);
      OneSessionIsExact(Step(s, acts[0]), acts[1..]);
    }
  }

  // ----- exactly when a connection stays findable

  /** FindLinkByUserInfo finds this very link. */
  predicate Findable(s: State, link: nat) {
    link in s.owner && IDOf(s.owner[link]) in s.links && s.links[IDOf(s.owner[link])] == link
  }

  /** Only handlers ending, and the counter catching up: no new connection, no idle clean-up, no Close. */
  predicate OnlyLeaves(acts: seq<Action>) {
    forall i :: 0 <= i < |acts| ==> !acts[i].Store? && !acts[i].Remove?
  }

  /** However the handlers end, an open link that can be found now is found until its own handler ends. */
  ghost predicate StaysFindable(s: State) {
    forall link, more ::
      link in s.open && Findable(s, link) && CanRun(s, more) && OnlyLeaves(more) && link in Run(s, more).open ==>
        Findable(Run(s, more), link)
  }

  /** No open link that can be found shares its user with another open link. */
  ghost predicate Unshared(s: State) {
    forall a, b :: a in s.open && b in s.open && a in s.owner && b in s.owner && Findable(s, a) && a != b ==>
      s.owner[a] != s.owner[b]
  }

  /** One link's part of Unshared. */
  ghost predicate Alone(s: State, link: nat) {
    link in s.owner && forall b :: b in s.open && b in s.owner && b != link ==> s.owner[b] != s.owner[link]
  }

  lemma LeaveKeepsFindable(s: State, a: Action, link: nat)
    requires Enabled(s, a) && !a.Store? && !a.Remove? && Findable(s, link) && Alone(s, link)
    requires a.Leave? ==> a.link != link
    ensures Findable(Step(s, a), link) && Alone(Step(s, a), link)
  {
    if a.Leave? {
      var x, y := s.owner[a.link], s.owner[link];
      LinkIDInjective(x.bizID, x.userID, y.bizID, y.userID);
    }
    hide IDOf;
  }

  lemma {:induction false} AloneStaysFindable(s: State, acts: seq<Action>, link: nat)
    requires CanRun(s, acts) && OnlyLeaves(acts) && Findable(s, link) && Alone(s, link)
    requires link in Run(s, acts).open
    ensures Findable(Run(s, acts), link)
    decreases |acts|
  {
    hide Findable, Alone;
    if acts != [] {
      OpenBefore(Step(s, acts[0]), acts[1..], link);
      LeaveKeepsFindable(s, acts[0], link);
      AloneStaysFindable(Step(s, acts[0]), acts[1..], link);
    }
  }

  lemma {:induction false} OpenBefore(s: State, acts: seq<Action>, link: nat)
    requires CanRun(s, acts) && OnlyLeaves(acts) && link in Run(s, acts).open
    ensures link in s.open
    decreases |acts|
  {
    hide IDOf;
    if acts != [] {
      OpenBefore(Step(s, acts[0]), acts[1..], link);
    }
  }

  /** The other connection's handler ends first, and takes the entry with it. */
  lemma OtherLeaveHides(s: State, a: nat, b: nat)
    requires a in s.open && b in s.open && a in s.owner && b in s.owner && Findable(s, a) && a != b
    requires s.owner[a] == s.owner[b]
    ensures !StaysFindable(s)
  {
    var t := FreshId(s.subtractors);
    var more := Then(s, [], Leave(t, b));
    assert OnlyLeaves(more);
    assert a in Run(s, more).open && !Findable(Run(s, more), a);
  }

  /** In every reachable state: open links that can be found stay findable until their own handlers end if and only if
      none of them shares its user with another open link. */
  lemma StaysFindableIff(acts: seq<Action>)
    requires CanRun(Init(), acts)
    ensures StaysFindable(Run(Init(), acts)) <==> Unshared(Run(Init(), acts))
  {
    RunFiled(Init(), acts);
    var s := Run(Init(), acts);
    hide Findable, CanRun, Run;
    if !Unshared(s) {
      var a, b :| a in s.open && b in s.open && a in s.owner && b in s.owner && Findable(s, a) && a != b
                  && s.owner[a] == s.owner[b];
      OtherLeaveHides(s, a, b);
    } else {
      forall link, more | link in s.open && Findable(s, link) && CanRun(s, more) && OnlyLeaves(more)
                          && link in Run(s, more).open
        ensures Findable(Run(s, more), link)
      {
        assert Alone(s, link);
        AloneStaysFindable(s, more, link);
      }
    }
  }

  /** Such a state is reachable: a reconnecting user is lost: the handler of the old connection removes the entry of the
      new one, which stays open but cannot be found. */
  lemma ReconnectLosesTheNewLink(user: User)
    ensures exists acts ::
              && CanRun(Init(), acts)
              && (var s := Run(Init(), acts);
                  && (exists link :: link in s.open && link in s.owner && s.owner[link] == user)
                  && IDOf(user) !in s.links && Quiescent(s) && s.len == 1 && |s.links| == 0)
  {
    hide IDOf;
    var acts := Then(Init(), [], Store(0, 0, user));
    acts := Then(Init(), acts, Count(0));
    acts := Then(Init(), acts, Store(0, 1, user));
    acts := Then(Init(), acts, Count(0));
    acts := Then(Init(), acts, Leave(0, 0));
    acts := Then(Init(), acts, Subtract(0));
    var s := Run(Init(), acts);
    assert 1 in s.open && s.owner[1] == user && s.links == map[];
  }

  /** One more step at the end of a run. */
  lemma {:induction false} Then(s: State, acts: seq<Action>, a: Action) returns (longer: seq<Action>)
    requires CanRun(s, acts) && Enabled(Run(s, acts), a)
    ensures longer == acts + [a] && CanRun(s, longer) && Run(s, longer) == Step(Run(s, acts), a)
    decreases |acts|
  {
    longer := acts + [a];
    if acts == [] {
      assert [] + [a] == [a];
    } else {
      assert (acts + [a])[1..] == acts[1..] + [a];
      var _ := Then(Step(s, acts[0]), acts[1..], a);
    }
  }

  // ----- the manager as an object

  class Manager {
    var links: map<string, nat>
    var len: int
    ghost var overwritten: nat
    ghost var owner: map<nat, User>   // the user of every link made so far

    /** At rest: the counter is off by the overwrites, and every entry leads to a link of the user it is filed under. */
    ghost predicate Valid()
      reads this
    {
      && len == |links| + overwritten
      && (forall id :: id in links ==> links[id] in owner && IDOf(owner[links[id]]) == id)
    }

    constructor ()
      ensures Valid() && links == map[] && len == 0 && owner == map[]
    {
      links, len, overwritten, owner := map[], 0, 0, map[];
    }

    /** Lines 81-94. */
    method NewLink(user: User, link: nat) returns (id: string)
      requires Valid() && link !in owner
      modifies this
      ensures Valid() && id == IDOf(user) && owner == old(owner)[link := user]
      ensures links == old(links)[id := link] && len == old(len) + 1
      ensures overwritten == old(overwritten) + if id in old(links) then 1 else 0
    {
      hide IDOf;
      id := IDOf(user);
      MapGrows(links, id, link);
      owner := owner[link := user];
      if id in links {
        overwritten := overwritten + 1;
      }
      links := links[id := link];
      len := len + 1;
    }

    /** Lines 138-141: a link that is found belongs to the very user asked for, and none is found only if no registered
        link belongs to that user. */
    method FindLinkByUserInfo(user: User) returns (link: Option<nat>)
      requires Valid()
      ensures link.Some? ==> link.value in owner && owner[link.value] == user && link.value in links.Values
      ensures link.None? ==> forall id :: id in links ==> owner[links[id]] != user
    {
      var id := IDOf(user);
      if id in links {
        ghost var found := owner[links[id]];
        LinkIDInjective(found.bizID, found.userID, user.bizID, user.userID);
        return Some(links[id]);
      }
      return None;
    }

    /** Lines 144-153. */
    method RemoveLink(id: string) returns (deleted: bool)
      requires Valid()
      modifies `links, `len
      ensures Valid() && deleted == (id in old(links))
      ensures links == old(links) - {id} && len == old(len) - if deleted then 1 else 0
    {
      deleted := id in links;
      if deleted {
        MapShrinks(links, id);
        links := links - {id};
        len := len - 1;
      } else {
        assert links - {id} == links;
      }
    }

    /** Lines 218-233; `idle` are the links whose TryCloseIfIdle says true. */
    method CleanIdleLinks(idle: set<nat>) returns (n: nat)
      requires Valid()
      modifies `links, `len
      ensures Valid() && len == old(len) - n
      ensures forall id :: id in links <==> id in old(links) && old(links)[id] !in idle
      ensures forall id :: id in links ==> links[id] == old(links)[id]
      ensures n == |old(links)| - |links|
    {
      var todo := links.Keys;
      n := 0;
      while todo != {}
        invariant todo <= links.Keys <= old(links).Keys
        invariant Valid() && len == old(len) - n
        invariant forall id :: id in links ==> links[id] == old(links)[id] && (id !in todo ==> links[id] !in idle)
        invariant forall id :: id in old(links) && id !in links ==> old(links)[id] in idle
        decreases todo
      {
        var id :| id in todo;
        if links[id] in idle {
          var deleted := RemoveLink(id);
          if deleted {
            n := n + 1;
          }
        }
        todo := todo - {id};
      }
    }

    /** Lines 252-276: afterwards nothing is registered, and the counter shows only past overwrites. */
    method Close()
      requires Valid()
      modifies `links, `len
      ensures Valid() && links == map[] && len == overwritten
    {
      if len == 0 {
        assert |links| == |links.Keys| && links.Keys == {};
        return;
      }
      var todo := links.Keys;
      while todo != {}
        invariant todo == links.Keys && Valid()
        decreases todo
      {
        var id :| id in todo;
        var _ := RemoveLink(id);
        todo := todo - {id};
      }
      assert |links| == |links.Keys|;
      assert links == map[];
    }
  }
}
