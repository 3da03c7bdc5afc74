/** Linking a partner to a user (internal/agentapi/service.go and agentapi.go): link requests, grants and
    the one-time token. */
module Links {
  // Ids, codes and tokens are random in the program and taken as fresh, so a link is known by its place
  // among the links, a grant by its place among the grants and a token by the link that handed it out.
  // Every store write may fail; a failed write is an argument of the step. One request is one step.

  import opened Outcomes
  import Hours

  const LINK_TTL: int := 600_000_000_000
  const MAX_LIMIT: int := 200_000_000

  const ALL_SCOPES: seq<string> := ["catalog:read", "profile:read", "orders:read", "orders:create", "orders:cancel"]

  datatype Partner = Partner(scopes: seq<string>, active: bool)

  datatype LinkStatus = Pending | Approved | Denied | Consumed | Expired

  datatype Link = Link(
    partner: nat, scopes: seq<string>, status: LinkStatus, user: string, grant: Option<nat>, expires: int,
    decided: Option<int>,
    approved: Option<int>)   // history: when it was approved

  datatype Grant = Grant(
    partner: nat, user: string, scopes: seq<string>, active: bool, perOrder: int, daily: int, token: bool,
    expires: Option<int>,
    link: nat,               // history: the link it was given for
    chosen: seq<string>)     // history: the scopes that the user chose

  datatype State = State(
    partners: seq<Partner>, links: seq<Link>, grants: seq<Grant>,
    handed: seq<nat>)        // history: the links that handed out a token, in order

  datatype Answer =
    | Done
    | Invalid           // rejected before anything was read or written
    | NotFound
    | LinkIsExpired
    | LinkIsDecided
    | StillPending
    | PartnerOff
    | Unusable          // the grant was revoked or has run out
    | StoreFailed

  datatype Request =
    | Start(partner: nat, want: seq<string>, now: int, saved: bool)
    | Approve(link: nat, user: string, scopes: seq<string>, perOrder: int, daily: int, now: int,
              oldSaved: bool, grantSaved: bool, linkSaved: bool)
    | Deny(link: nat, user: string, now: int, saved: bool)
    | Poll(partner: nat, link: nat, secretFits: bool, now: int, grantSaved: bool, linkSaved: bool)
    | Revoke(grant: nat, user: string, saved: bool)

  // ----- Scopes -----

  predicate ValidScopes(list: seq<string>) {
    forall x :: x in list ==> x in ALL_SCOPES
  }

  function Intersect(want: seq<string>, ceiling: seq<string>): seq<string> {
    if want == [] then []
    else
      var out := Intersect(want[..|want| - 1], ceiling);
      var x := want[|want| - 1];
      if x in ceiling && x !in out then out + [x] else out
  }

  method IntersectScopes(want: seq<string>, ceiling: seq<string>) returns (out: seq<string>)
    ensures out == Intersect(want, ceiling)
  {
    out := [];
    for i := 0 to |want|
      invariant out == Intersect(want[..i], ceiling)
    {
      assert want[..i + 1][..i] == want[..i];
      if want[i] in ceiling && want[i] !in out {
        out := out + [want[i]];
      }
    }
    assert want[..|want|] == want;
  }

  predicate Distinct(s: seq<string>) {
    forall i, j :: 0 <= i < j < |s| ==> s[i] != s[j]
  }

  predicate Within(a: seq<string>, b: seq<string>) {
    forall x :: x in a ==> x in b
  }

  /** Neither side can widen the other's choice: the result is what both allow, each scope once. */
  lemma {:induction false} IntersectionIsCommon(want: seq<string>, ceiling: seq<string>)
    ensures Distinct(Intersect(want, ceiling))
    ensures forall x :: x in Intersect(want, ceiling) <==> x in want && x in ceiling
  {
    if want != [] {
      IntersectionIsCommon(want[..|want| - 1], ceiling);
      assert want == want[..|want| - 1] + [want[|want| - 1]];
    }
  }

  // ----- Requests -----

  predicate IsLive(l: Link, now: int) {
    l.status == Pending && now < l.expires
  }

  predicate Usable(g: Grant, now: int) {
    g.active && (g.expires.Some? ==> now < g.expires.value)
  }

  predicate Blank(user: string) { Hours.TrimSpace(user) == "" }

  predicate LimitsOk(perOrder: int, daily: int) {
    && 0 <= perOrder <= MAX_LIMIT && 0 <= daily <= MAX_LIMIT
    && (daily > 0 ==> perOrder <= daily)
  }

  /** Some active grant of this partner for this user, if there is one. */
  function ActiveGrant(grants: seq<Grant>, partner: nat, user: string): (r: Option<nat>)
    ensures r.Some? ==> r.value < |grants| && Covers(grants[r.value], partner, user)
    ensures r.None? ==> forall i :: 0 <= i < |grants| ==> !Covers(grants[i], partner, user)
  {
    if grants == [] then None
    else if Covers(grants[|grants| - 1], partner, user) then Some(|grants| - 1)
    else ActiveGrant(grants[..|grants| - 1], partner, user)
  }

  predicate Covers(g: Grant, partner: nat, user: string) {
    g.partner == partner && g.user == user && g.active
  }

  function WithoutOld(grants: seq<Grant>, partner: nat, user: string): seq<Grant> {
    match ActiveGrant(grants, partner, user)
    case None => grants
    case Some(i) => grants[i := grants[i].(active := false)]
  }

  /** ResolveUserCode for a code that belongs to link `l`. */
  function Resolve(s: State, l: nat, now: int): Answer {
    if l >= |s.links| then NotFound
    else if !IsLive(s.links[l], now) then (if s.links[l].status == Pending then LinkIsExpired else LinkIsDecided)
    else if s.links[l].partner >= |s.partners| then NotFound
    else if !s.partners[s.links[l].partner].active then PartnerOff
    else Done
  }

  function DoStart(s: State, q: Request): (State, Answer)
    requires q.Start?
  {
    if q.partner >= |s.partners| || !ValidScopes(q.want) then (s, Invalid)
    else
      var scopes := Intersect(q.want, s.partners[q.partner].scopes);
      if scopes == [] then (s, Invalid)
      else if !q.saved then (s, StoreFailed)
      else (s.(links := s.links + [Link(q.partner, scopes, Pending, "", None, q.now + LINK_TTL, None, None)]), Done)
  }

  function DoApprove(s: State, q: Request): (State, Answer)
    requires q.Approve?
  {
    if Blank(q.user) || !LimitsOk(q.perOrder, q.daily) || !ValidScopes(q.scopes) then (s, Invalid)
    else if Resolve(s, q.link, q.now) != Done then (s, Resolve(s, q.link, q.now))
    else
      var l := s.links[q.link];
      var granted := Intersect(q.scopes, l.scopes);
      if granted == [] then (s, Invalid)
      else if ActiveGrant(s.grants, l.partner, q.user).Some? && !q.oldSaved then (s, StoreFailed)
      else
        var s1 := s.(grants := WithoutOld(s.grants, l.partner, q.user));
        if !q.grantSaved then (s1, StoreFailed)
        else
          var g := Grant(l.partner, q.user, granted, true, q.perOrder, q.daily, false, None, q.link, q.scopes);
          var s2 := s1.(grants := s1.grants + [g]);
          if !q.linkSaved then (s2, StoreFailed)
          else
            (s2.(links := s.links[q.link := l.(status := Approved, user := q.user, grant := Some(|s1.grants|),
                                                decided := Some(q.now), approved := Some(q.now))]), Done)
  }

  function DoDeny(s: State, q: Request): (State, Answer)
    requires q.Deny?
  {
    if Resolve(s, q.link, q.now) != Done then (s, Resolve(s, q.link, q.now))
    else if !q.saved then (s, StoreFailed)
    else (s.(links := s.links[q.link := s.links[q.link].(status := Denied, user := q.user, decided := Some(q.now))]), Done)
  }

  function DoPoll(s: State, q: Request): (State, Answer)
    requires q.Poll?
  {
    if q.link >= |s.links| || s.links[q.link].partner != q.partner || !q.secretFits then (s, NotFound)
    else
      var l := s.links[q.link];
      match l.status
      case Pending =>
        if q.now < l.expires then (s, StillPending)
        else if !q.linkSaved then (s, StoreFailed)
        else (s.(links := s.links[q.link := l.(status := Expired, decided := Some(q.now))]), LinkIsExpired)
      case Denied => (s, Done)
      case Expired => (s, LinkIsExpired)
      case Consumed => (s, LinkIsDecided)
      case Approved =>
        if l.grant.None? || l.grant.value >= |s.grants| then (s, NotFound)
        else
          var g := l.grant.value;
          if !Usable(s.grants[g], q.now) then (s, Unusable)
          else if !q.grantSaved then (s, StoreFailed)
          else
            var s1 := s.(grants := s.grants[g := s.grants[g].(token := true)]);
            if !q.linkSaved then (s1, StoreFailed)
            else (s1.(links := s.links[q.link := l.(status := Consumed, decided := Some(q.now))],
                      handed := s.handed + [q.link]), Done)
  }

  function DoRevoke(s: State, q: Request): (State, Answer)
    requires q.Revoke?
  {
    if q.grant >= |s.grants| || s.grants[q.grant].user != q.user then (s, NotFound)
    else if !s.grants[q.grant].active then (s, Done)
    else if !q.saved then (s, StoreFailed)
    else (s.(grants := s.grants[q.grant := s.grants[q.grant].(active := false)]), Done)
  }

  function Serve(s: State, q: Request): (State, Answer) {
    match q
    case Start(_, _, _, _) => DoStart(s, q)
    case Approve(_, _, _, _, _, _, _, _, _) => DoApprove(s, q)
    case Deny(_, _, _, _) => DoDeny(s, q)
    case Poll(_, _, _, _, _, _) => DoPoll(s, q)
    case Revoke(_, _, _) => DoRevoke(s, q)
  }

  function ServeAll(s: State, qs: seq<Request>): State
    decreases |qs|
  {
    if qs == [] then s else ServeAll(Serve(s, qs[0]).0, qs[1..])
  }

  // ----- What every request keeps -----

  ghost predicate OneActive(s: State) {
    forall i, j :: 0 <= i < j < |s.grants| && s.grants[i].active && s.grants[j].active ==>
      s.grants[i].partner != s.grants[j].partner || s.grants[i].user != s.grants[j].user
  }

  predicate LinkOk(s: State, i: nat, l: Link) {
    && l.partner < |s.partners|
    && l.scopes != [] && Distinct(l.scopes) && Within(l.scopes, s.partners[l.partner].scopes) && ValidScopes(l.scopes)
    && (l.approved.Some? ==> l.approved.value < l.expires)
    && (l.status == Approved || l.status == Consumed ==>
          l.approved.Some? && l.grant.Some? && l.grant.value < |s.grants| && s.grants[l.grant.value].link == i)
    && (l.status == Pending ==> l.approved.None?)
  }

  ghost predicate GrantOk(s: State, g: Grant) {
    && g.link < |s.links| && s.links[g.link].partner == g.partner
    && g.scopes != [] && Distinct(g.scopes)
    && (forall x :: x in g.scopes <==> x in g.chosen && x in s.links[g.link].scopes)
    && LimitsOk(g.perOrder, g.daily)
  }

  ghost predicate LinksOk(s: State) {
    forall i :: 0 <= i < |s.links| ==> LinkOk(s, i, s.links[i])
  }

  ghost predicate GrantsOk(s: State) {
    forall i :: 0 <= i < |s.grants| ==> GrantOk(s, s.grants[i])
  }

  ghost predicate HandedOnce(s: State) {
    && (forall i :: 0 <= i < |s.handed| ==> s.handed[i] < |s.links| && s.links[s.handed[i]].status == Consumed)
    && (forall i, j :: 0 <= i < j < |s.handed| ==> s.handed[i] != s.handed[j])
  }

  ghost predicate Inv(s: State) {
    OneActive(s) && LinksOk(s) && GrantsOk(s) && HandedOnce(s)
  }

  lemma RevokingLeavesNone(grants: seq<Grant>, partner: nat, user: string)
    requires forall i, j :: 0 <= i < j < |grants| && grants[i].active && grants[j].active ==>
               grants[i].partner != grants[j].partner || grants[i].user != grants[j].user
    ensures forall i :: 0 <= i < |WithoutOld(grants, partner, user)| ==> !Covers(WithoutOld(grants, partner, user)[i], partner, user)
  {
  }

  lemma KeepsOneActive(s: State, q: Request)
    requires OneActive(s)
    ensures OneActive(Serve(s, q).0)
  {
    if q.Approve? && q.link < |s.links| {
      RevokingLeavesNone(s.grants, s.links[q.link].partner, q.user);
    }
  }

  /** Links and grants only change where their own record allows it. */
  lemma GrantsLast(s: State, q: Request)
    ensures var s' := Serve(s, q).0;
            && s'.partners == s.partners && |s.links| <= |s'.links| && |s.grants| <= |s'.grants|
            && (forall i :: 0 <= i < |s.links| ==> s'.links[i].partner == s.links[i].partner
                                                   && s'.links[i].scopes == s.links[i].scopes
                                                   && s'.links[i].expires == s.links[i].expires)
            && (forall i :: 0 <= i < |s.grants| ==> SameGrant(s.grants[i], s'.grants[i]))
  {
  }

  predicate SameGrant(a: Grant, b: Grant) {
    a.partner == b.partner && a.user == b.user && a.scopes == b.scopes && a.link == b.link && a.chosen == b.chosen
    && a.perOrder == b.perOrder && a.daily == b.daily
  }

  lemma KeepsGrants(s: State, q: Request)
    requires GrantsOk(s) && LinksOk(s)
    ensures GrantsOk(Serve(s, q).0)
  {
    var s' := Serve(s, q).0;
    GrantsLast(s, q);
    forall i | 0 <= i < |s'.grants| ensures GrantOk(s', s'.grants[i]) {
      if i < |s.grants| {
        GrantStaysOk(s, q, i);
      } else {
        IntersectionIsCommon(q.scopes, s.links[q.link].scopes);
      }
    }
  }

  lemma GrantStaysOk(s: State, q: Request, i: nat)
    requires GrantsOk(s) && i < |s.grants|
    ensures i < |Serve(s, q).0.grants| && GrantOk(Serve(s, q).0, Serve(s, q).0.grants[i])
  {
    GrantsLast(s, q);
    assert GrantOk(s, s.grants[i]);
  }

  lemma KeepsLinks(s: State, q: Request)
    requires LinksOk(s)
    ensures LinksOk(Serve(s, q).0)
  {
    var s' := Serve(s, q).0;
    GrantsLast(s, q);
    forall i | 0 <= i < |s'.links| ensures LinkOk(s', i, s'.links[i]) {
      if i < |s.links| {
        assert LinkOk(s, i, s.links[i]);
        LinkStepOk(s, q, i);
      } else {
        IntersectionIsCommon(q.want, s.partners[q.partner].scopes);
      }
    }
  }

  lemma LinkStepOk(s: State, q: Request, i: nat)
    requires i < |s.links| && LinkOk(s, i, s.links[i])
    ensures i < |Serve(s, q).0.links| && LinkOk(Serve(s, q).0, i, Serve(s, q).0.links[i])
  {
    GrantsLast(s, q);
  }

  lemma KeepsHandedOnce(s: State, q: Request)
    requires HandedOnce(s)
    ensures HandedOnce(Serve(s, q).0)
  {
  }

  lemma {:induction false} InvAlways(s: State, qs: seq<Request>)
    requires Inv(s)
    ensures Inv(ServeAll(s, qs))
    decreases |qs|
  {
    if qs != [] {
      KeepsOneActive(s, qs[0]);
      KeepsLinks(s, qs[0]);
      KeepsGrants(s, qs[0]);
      KeepsHandedOnce(s, qs[0]);
      InvAlways(Serve(s, qs[0]).0, qs[1..]);
    }
  }

  function Fresh(partners: seq<Partner>): State { State(partners, [], [], []) }

  // ----- What linking guarantees -----

  /** After any requests, with any writes failing: a user has one active grant per partner at most. */
  lemma OneActiveGrant(partners: seq<Partner>, qs: seq<Request>, i: nat, j: nat)
    requires var s := ServeAll(Fresh(partners), qs);
             i < |s.grants| && j < |s.grants| && s.grants[i].active && s.grants[j].active
             && s.grants[i].partner == s.grants[j].partner && s.grants[i].user == s.grants[j].user
    ensures i == j
  {
    InvAlways(Fresh(partners), qs);
  }

  /** A grant allows exactly what its user chose of what the partner asked for, which is never more than the
      partner may have; and it allows something. */
  lemma ScopesOnlyShrink(partners: seq<Partner>, qs: seq<Request>, i: nat)
    requires i < |ServeAll(Fresh(partners), qs).grants|
    ensures var s := ServeAll(Fresh(partners), qs); var g := s.grants[i];
            && g.link < |s.links| && g.partner < |partners|
            && g.scopes != [] && Distinct(g.scopes)
            && (forall x :: x in g.scopes <==> x in g.chosen && x in s.links[g.link].scopes)
            && Within(s.links[g.link].scopes, partners[g.partner].scopes)
  {
    var s := ServeAll(Fresh(partners), qs);
    InvAlways(Fresh(partners), qs);
    PartnersStay(Fresh(partners), qs);
    assert GrantOk(s, s.grants[i]) && LinkOk(s, s.grants[i].link, s.links[s.grants[i].link]);
  }

  lemma {:induction false} PartnersStay(s: State, qs: seq<Request>)
    ensures ServeAll(s, qs).partners == s.partners
    decreases |qs|
  {
    if qs != [] {
      GrantsLast(s, qs[0]);
      PartnersStay(Serve(s, qs[0]).0, qs[1..]);
    }
  }

  /** No link hands out a second token. */
  lemma OneTokenPerLink(partners: seq<Partner>, qs: seq<Request>, i: nat, j: nat)
    requires i < j < |ServeAll(Fresh(partners), qs).handed|
    ensures ServeAll(Fresh(partners), qs).handed[i] != ServeAll(Fresh(partners), qs).handed[j]
  {
    InvAlways(Fresh(partners), qs);
  }

  /** Every link that handed out a token was approved, before it ran out, and is consumed since. */
  lemma TokensAreForApprovedLinks(partners: seq<Partner>, qs: seq<Request>, i: nat)
    requires i < |ServeAll(Fresh(partners), qs).handed|
    ensures var s := ServeAll(Fresh(partners), qs);
            && s.handed[i] < |s.links| && s.links[s.handed[i]].status == Consumed
            && s.links[s.handed[i]].approved.Some? && s.links[s.handed[i]].approved.value < s.links[s.handed[i]].expires
  {
    var s := ServeAll(Fresh(partners), qs);
    InvAlways(Fresh(partners), qs);
    assert LinkOk(s, s.handed[i], s.links[s.handed[i]]);
  }

  /** Whatever was decided about a link is not decided again: it stays, except that an approved link is
      consumed. Approving needs a link that has not run out. */
  lemma DecisionsStand(s: State, q: Request, i: nat)
    requires i < |s.links|
    ensures i < |Serve(s, q).0.links|
    ensures var a, b := s.links[i], Serve(s, q).0.links[i];
            && (a.status != Pending ==> b.status == a.status || (a.status == Approved && b.status == Consumed))
            && (a.status != Pending ==> b.user == a.user && b.grant == a.grant && b.approved == a.approved)
            && (a.status == Pending && b.status == Approved ==> q.Approve? && q.link == i && q.now < a.expires)
            && (b.status == Consumed && a.status != Consumed ==> q.Poll? && q.secretFits && q.partner == a.partner)
  {
  }

  /** The same over any number of requests. */
  lemma {:induction false} DecisionsStandForEver(s: State, qs: seq<Request>, i: nat)
    requires i < |s.links| && s.links[i].status != Pending
    ensures i < |ServeAll(s, qs).links|
    ensures var a, b := s.links[i], ServeAll(s, qs).links[i];
            && (b.status == a.status || (a.status == Approved && b.status == Consumed))
            && b.user == a.user && b.grant == a.grant && b.approved == a.approved
    decreases |qs|
  {
    if qs != [] {
      DecisionsStand(s, qs[0], i);
      DecisionsStandForEver(Serve(s, qs[0]).0, qs[1..], i);
    }
  }

  // ----- What one request does -----

  /** The link can be decided now. */
  predicate CanBeDecided(s: State, l: nat, now: int) {
    && l < |s.links| && s.links[l].status == Pending && now < s.links[l].expires
    && s.links[l].partner < |s.partners| && s.partners[s.links[l].partner].active
  }

  predicate Share(a: seq<string>, b: seq<string>) { exists x :: x in a && x in b }

  lemma SomethingInCommon(a: seq<string>, b: seq<string>)
    ensures Share(a, b) <==> Intersect(a, b) != []
  {
    IntersectionIsCommon(a, b);
    var both := Intersect(a, b);
    if both != [] {
      assert both[0] in both;
    }
    if Share(a, b) {
      var x :| x in a && x in b;
      assert x in both;
    }
  }

  ghost predicate SameBut(a: seq<Link>, b: seq<Link>, i: nat) {
    |a| == |b| && forall j :: 0 <= j < |a| && j != i ==> a[j] == b[j]
  }

  /** Nothing about a grant has changed but that it may have been revoked. */
  ghost predicate OnlyRevoked(a: seq<Grant>, b: seq<Grant>) {
    && |a| <= |b|
    && forall j :: 0 <= j < |a| ==> b[j] == a[j] || b[j] == a[j].(active := false)
  }

  lemma BlankIsAllSpace(user: string)
    ensures Blank(user) <==> forall i :: 0 <= i < |user| ==> Hours.IsSpace(user[i])
  {
    Hours.TrimsBothEnds(user);
    var t := Hours.TrimSpace(user);
    var a, b :| user == a + t + b && (forall i :: 0 <= i < |a| ==> Hours.IsSpace(a[i])) && (forall i :: 0 <= i < |b| ==> Hours.IsSpace(b[i]));
    SpaceAround(user, a, t, b);
  }

  lemma SpaceAround(s: string, a: string, t: string, b: string)
    requires s == a + t + b && (forall i :: 0 <= i < |a| ==> Hours.IsSpace(a[i])) && (forall i :: 0 <= i < |b| ==> Hours.IsSpace(b[i]))
    requires t != [] ==> !Hours.IsSpace(t[0])
    ensures t == [] <==> forall i :: 0 <= i < |s| ==> Hours.IsSpace(s[i])
  {
    if t == [] {
      assert s == a + b;
    } else {
      assert s[|a|] == t[0];
    }
  }

  /** What is there to be approved. */
  predicate Approvable(s: State, q: Request)
    requires q.Approve?
  {
    && (exists i :: 0 <= i < |q.user| && !Hours.IsSpace(q.user[i])) && 0 <= q.perOrder <= MAX_LIMIT && 0 <= q.daily <= MAX_LIMIT && (q.daily == 0 || q.perOrder <= q.daily)
    && (forall x :: x in q.scopes ==> x in ALL_SCOPES)
    && CanBeDecided(s, q.link, q.now) && Share(q.scopes, s.links[q.link].scopes)
  }

  /** An approval succeeds exactly if the link can be decided, the choice is sound and leaves something, and
      every write works. Then there is one more grant: active, for this user, link and partner, with exactly the
      two limits named and exactly the chosen scopes that the link asked for; it is the only active one of the
      two; the link points to it; nothing else changes. */
  lemma ApprovedExactly(s: State, q: Request)
    requires q.Approve? && OneActive(s)
    ensures var (t, a) := Serve(s, q);
            && (a == Done ==> Approvable(s, q) && q.grantSaved && q.linkSaved)
            && (Approvable(s, q) && q.oldSaved && q.grantSaved && q.linkSaved ==> a == Done)
            && (a == Done ==>
                  && |t.grants| == |s.grants| + 1 && OnlyRevoked(s.grants, t.grants)
                  && (forall i :: 0 <= i < |s.grants| && t.grants[i] != s.grants[i] ==>
                        s.grants[i].partner == s.links[q.link].partner && s.grants[i].user == q.user)
                  && var g := t.grants[|s.grants|]; var l := s.links[q.link];
                     && g.active && g.user == q.user && g.partner == l.partner && g.link == q.link && g.chosen == q.scopes
                     && g.perOrder == q.perOrder && g.daily == q.daily && !g.token && g.expires == None
                     && (forall x :: x in g.scopes <==> x in q.scopes && x in l.scopes) && g.scopes != []
                     && (forall i :: 0 <= i < |s.grants| && s.grants[i].partner == l.partner && s.grants[i].user == q.user ==> !t.grants[i].active)
                     && SameBut(s.links, t.links, q.link)
                     && t.links[q.link] == l.(status := Approved, user := q.user, grant := Some(|s.grants|),
                                              decided := Some(q.now), approved := Some(q.now)))
            && t.handed == s.handed && t.partners == s.partners
  {
    BlankIsAllSpace(q.user);
    if q.link < |s.links| {
      var l := s.links[q.link];
      IntersectionIsCommon(q.scopes, l.scopes);
      RevokingLeavesNone(s.grants, l.partner, q.user);
      SomethingInCommon(q.scopes, l.scopes);
    }
  }

  /** An approval that fails leaves the links alone, and says why: the request is unsound, or the link cannot be
      decided, or a write failed (of which a revoked old grant, or a grant without its link, may be left). */
  lemma NotApprovedBecause(s: State, q: Request)
    requires q.Approve?
    ensures var (t, a) := Serve(s, q);
            a != Done ==>
              && t.links == s.links && t.handed == s.handed && OnlyRevoked(s.grants, t.grants)
              && (a == Invalid || a == NotFound || a == LinkIsExpired || a == LinkIsDecided || a == PartnerOff || a == StoreFailed)
              && (a != StoreFailed ==> t == s)
              && (a == LinkIsExpired ==> q.link < |s.links| && s.links[q.link].status == Pending && q.now >= s.links[q.link].expires)
              && (a == LinkIsDecided ==> q.link < |s.links| && s.links[q.link].status != Pending)
              && (a == PartnerOff ==> q.link < |s.links| && s.links[q.link].partner < |s.partners| && !s.partners[s.links[q.link].partner].active)
              && (a == StoreFailed ==> CanBeDecided(s, q.link, q.now) && !(q.oldSaved && q.grantSaved && q.linkSaved))
              && (a == NotFound ==> q.link >= |s.links| || s.links[q.link].partner >= |s.partners|)
  {
  }

  /** A link is started exactly if all the wanted scopes exist and some are the partner's; then it has exactly
      these, waits for its user, and runs out after ten minutes. */
  lemma StartedExactly(s: State, q: Request)
    requires q.Start?
    ensures var (t, a) := Serve(s, q);
            && (a == Done <==> q.partner < |s.partners| && (forall x :: x in q.want ==> x in ALL_SCOPES)
                               && Share(q.want, s.partners[q.partner].scopes) && q.saved)
            && (a != Done ==> t == s && (a == Invalid || (a == StoreFailed && !q.saved)))
            && (a == Done ==>
                  && t.grants == s.grants && t.handed == s.handed && t.partners == s.partners
                  && |t.links| == |s.links| + 1 && t.links[..|s.links|] == s.links
                  && var l := t.links[|s.links|];
                     && l.partner == q.partner && l.status == Pending && l.grant == None && l.expires == q.now + LINK_TTL
                     && (forall x :: x in l.scopes <==> x in q.want && x in s.partners[q.partner].scopes))
  {
    if q.partner < |s.partners| {
      var most := s.partners[q.partner].scopes;
      IntersectionIsCommon(q.want, most);
      SomethingInCommon(q.want, most);
    }
  }

  /** Denying needs a link that can be decided, and changes nothing but that link. */
  lemma DeniedExactly(s: State, q: Request)
    requires q.Deny?
    ensures var (t, a) := Serve(s, q);
            && (a == Done <==> CanBeDecided(s, q.link, q.now) && q.saved)
            && (a != Done ==> t == s)
            && (a == Done ==>
                  && t.grants == s.grants && t.handed == s.handed && t.partners == s.partners && SameBut(s.links, t.links, q.link)
                  && t.links[q.link] == s.links[q.link].(status := Denied, user := q.user, decided := Some(q.now)))
  {
  }

  /** The partner polls its own link with the right secret, and its user has approved it and not taken it back. */
  predicate Collectable(s: State, q: Request)
    requires q.Poll?
  {
    && q.link < |s.links| && s.links[q.link].partner == q.partner && q.secretFits && s.links[q.link].status == Approved
    && s.links[q.link].grant.Some? && s.links[q.link].grant.value < |s.grants|
    && var g := s.grants[s.links[q.link].grant.value];
       g.active && (g.expires == None || q.now < g.expires.value)
  }

  /** A token is handed out exactly then, if both writes work: the grant gets it and the link is consumed. The
      other answers are those of the link's state; a stranger, or a wrong secret, learns nothing. */
  lemma CollectedExactly(s: State, q: Request)
    requires q.Poll?
    ensures var (t, a) := Serve(s, q);
            var mine := q.link < |s.links| && s.links[q.link].partner == q.partner && q.secretFits;
            && (t.handed == s.handed + [q.link] <==> Collectable(s, q) && q.grantSaved && q.linkSaved)
            && (t.handed != s.handed + [q.link] ==> t.handed == s.handed)
            && (t.handed != s.handed ==>
                  && a == Done && SameBut(s.links, t.links, q.link)
                  && t.links[q.link] == s.links[q.link].(status := Consumed, decided := Some(q.now))
                  && var g := s.links[q.link].grant.value; t.grants == s.grants[g := s.grants[g].(token := true)])
            && (!mine ==> a == NotFound && t == s)
            && (mine && s.links[q.link].status == Pending ==>
                  if q.now < s.links[q.link].expires then a == StillPending && t == s
                  else if q.linkSaved
                  then a == LinkIsExpired && t == s.(links := s.links[q.link := s.links[q.link].(status := Expired, decided := Some(q.now))])
                  else a == StoreFailed && t == s)
            && (mine && s.links[q.link].status == Denied ==> a == Done && t == s)
            && (mine && s.links[q.link].status == Expired ==> a == LinkIsExpired && t == s)
            && (mine && s.links[q.link].status == Consumed ==> a == LinkIsDecided && t == s)
            && (mine && s.links[q.link].status == Approved && !Collectable(s, q) ==> (a == NotFound || a == Unusable) && t == s)
            && (Collectable(s, q) && !(q.grantSaved && q.linkSaved) ==> a == StoreFailed && t.links == s.links)
  {
  }

  /** After a successful revocation the user's grant is not active; a stranger's is not touched. */
  lemma RevokedExactly(s: State, q: Request)
    requires q.Revoke?
    ensures var (t, a) := Serve(s, q);
            var mine := q.grant < |s.grants| && s.grants[q.grant].user == q.user;
            && (a == Done <==> mine && (!s.grants[q.grant].active || q.saved))
            && (!mine ==> a == NotFound)
            && (a == Done ==> t == s.(grants := s.grants[q.grant := s.grants[q.grant].(active := false)]))
            && (a != Done ==> t == s)
  {
    if q.grant < |s.grants| && !s.grants[q.grant].active {
      assert s.grants[q.grant := s.grants[q.grant]] == s.grants;
    }
  }

  // ----- The service object -----

  class Service {
    var partners: seq<Partner>
    var links: seq<Link>
    var grants: seq<Grant>
    ghost var handed: seq<nat>

    ghost function Now(): State
      reads this
    {
      State(partners, links, grants, handed)
    }

    method StartLink(partner: nat, want: seq<string>, now: int, saved: bool) returns (answer: Answer)
      modifies this`links
      ensures (Now(), answer) == DoStart(old(Now()), Start(partner, want, now, saved))
    {
      if partner >= |partners| {
        return Invalid;
      }
      if !ValidScopes(want) {
        return Invalid;
      }
      var scopes := IntersectScopes(want, partners[partner].scopes);
      if scopes == [] {
        return Invalid;
      }
      if !saved {
        return StoreFailed;
      }
      links := links + [Link(partner, scopes, Pending, "", None, now + LINK_TTL, None, None)];
      return Done;
    }

    method ApproveLink(link: nat, user: string, scopes: seq<string>, perOrder: int, daily: int, now: int,
                       oldSaved: bool, grantSaved: bool, linkSaved: bool) returns (answer: Answer)
      modifies this
      ensures (Now(), answer) == DoApprove(old(Now()), Approve(link, user, scopes, perOrder, daily, now, oldSaved, grantSaved, linkSaved))
    {
      if Blank(user) {
        return Invalid;
      }
      if perOrder < 0 || daily < 0 || perOrder > MAX_LIMIT || daily > MAX_LIMIT {
        return Invalid;
      }
      if daily > 0 && perOrder > daily {
        return Invalid;
      }
      if !ValidScopes(scopes) {
        return Invalid;
      }
      var found := ResolveUserCode(link, now);
      if found != Done {
        return found;
      }
      var l := links[link];
      var granted := IntersectScopes(scopes, l.scopes);
      if granted == [] {
        return Invalid;
      }
      var previous := ActiveGrant(grants, l.partner, user);
      if previous.Some? {
        if !oldSaved {
          return StoreFailed;
        }
        grants := grants[previous.value := grants[previous.value].(active := false)];
      }
      if !grantSaved {
        return StoreFailed;
      }
      grants := grants + [Grant(l.partner, user, granted, true, perOrder, daily, false, None, link, scopes)];
      if !linkSaved {
        return StoreFailed;
      }
      l := l.(status := Approved, user := user, grant := Some(|grants| - 1), decided := Some(now), approved := Some(now));
      links := links[link := l];
      return Done;
    }

    method ResolveUserCode(link: nat, now: int) returns (answer: Answer)
      ensures answer == Resolve(Now(), link, now)
    {
      if link >= |links| {
        return NotFound;
      }
      if !IsLive(links[link], now) {
        if links[link].status == Pending {
          return LinkIsExpired;
        }
        return LinkIsDecided;
      }
      if links[link].partner >= |partners| {
        return NotFound;
      }
      if !partners[links[link].partner].active {
        return PartnerOff;
      }
      return Done;
    }

    method DenyLink(link: nat, user: string, now: int, saved: bool) returns (answer: Answer)
      modifies this
      ensures (Now(), answer) == DoDeny(old(Now()), Deny(link, user, now, saved))
    {
      var found := ResolveUserCode(link, now);
      if found != Done {
        return found;
      }
      if !saved {
        return StoreFailed;
      }
      links := links[link := links[link].(status := Denied, user := user, decided := Some(now))];
      return Done;
    }

    method PollLink(partner: nat, link: nat, secretFits: bool, now: int, grantSaved: bool, linkSaved: bool)
      returns (answer: Answer, token: bool)
      modifies this
      ensures (Now(), answer) == DoPoll(old(Now()), Poll(partner, link, secretFits, now, grantSaved, linkSaved))
      ensures token <==> handed == old(handed) + [link]
      ensures !token ==> handed == old(handed)
    {
      if link >= |links| {
        return NotFound, false;
      }
      var l := links[link];
      if l.partner != partner {
        return NotFound, false;
      }
      if !secretFits {
        return NotFound, false;
      }
      if l.status == Pending && now >= l.expires {
        if !linkSaved {
          return StoreFailed, false;
        }
        links := links[link := l.(status := Expired, decided := Some(now))];
        return LinkIsExpired, false;
      }
      match l.status {
        case Pending => return StillPending, false;
        case Denied => return Done, false;
        case Expired => return LinkIsExpired, false;
        case Consumed => return LinkIsDecided, false;
        case Approved =>
      }
      if l.grant.None? || l.grant.value >= |grants| {
        return NotFound, false;
      }
      var g := grants[l.grant.value];
      if !Usable(g, now) {
        return Unusable, false;
      }
      if !grantSaved {
        return StoreFailed, false;
      }
      grants := grants[l.grant.value := g.(token := true)];
      if !linkSaved {
        return StoreFailed, false;
      }
      links := links[link := l.(status := Consumed, decided := Some(now))];
      handed := handed + [link];
      return Done, true;
    }

    method RevokeGrant(grant: nat, user: string, saved: bool) returns (answer: Answer)
      modifies this
      ensures (Now(), answer) == DoRevoke(old(Now()), Revoke(grant, user, saved))
    {
      if grant >= |grants| {
        return NotFound;
      }
      var g := grants[grant];
      if g.user != user {
        return NotFound;
      }
      if !g.active {
        return Done;
      }
      if !saved {
        return StoreFailed;
      }
      grants := grants[grant := g.(active := false)];
      return Done;
    }
  }
}
