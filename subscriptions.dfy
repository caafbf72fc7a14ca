/** The subscription commands of subscriptions.py: listing the plans, displaying a
    subscription with its quotas and usages sorted by resource type, and choosing between
    the caller's own endpoint and the admin endpoint.

    Printed output is the sequence of lines the `print` calls write, each without its
    final newline. */
module Subscriptions {
  import opened Common
  import opened Strings
  import opened Client
  import Jwt

  /** The amounts are in ascending resource-type order. */
  predicate SortedByName(s: seq<Amount>)
  {
    forall i, j :: 0 <= i < j < |s| ==> LessEq(s[i].resourceType, s[j].resourceType)
  }

  /** `x` placed in front of the first amount whose name is not smaller than its own. */
  function Insert(x: Amount, s: seq<Amount>): (r: seq<Amount>)
    ensures |r| == |s| + 1
  {
    if s == [] || LessEq(x.resourceType, s[0].resourceType) then [x] + s
    else [s[0]] + Insert(x, s[1..])
  }

  /** An insertion adds `x` and loses nothing. */
  lemma {:induction false} InsertPermutation(x: Amount, s: seq<Amount>)
    ensures multiset(Insert(x, s)) == multiset(s) + multiset{x}
  {
    if s != [] && !LessEq(x.resourceType, s[0].resourceType) {
      InsertPermutation(x, s[1..]);
      assert s == [s[0]] + s[1..];
    }
  }

  /** Every amount of an insertion is above `low` when `x` and the amounts it went into are. */
  lemma InsertAbove(low: Amount, x: Amount, s: seq<Amount>, r: seq<Amount>)
    requires multiset(r) == multiset(s) + multiset{x}
    requires LessEq(low.resourceType, x.resourceType)
    requires forall i :: 0 <= i < |s| ==> LessEq(low.resourceType, s[i].resourceType)
    ensures forall i :: 0 <= i < |r| ==> LessEq(low.resourceType, r[i].resourceType)
  {
    forall i | 0 <= i < |r| ensures LessEq(low.resourceType, r[i].resourceType) {
      assert r[i] in multiset(r);
      if r[i] != x {
        assert r[i] in multiset(s);
        var k :| 0 <= k < |s| && s[k] == r[i];
      }
    }
  }

  /** Inserting into a sorted sequence keeps it sorted. */
  lemma {:induction false} InsertSorted(x: Amount, s: seq<Amount>)
    requires SortedByName(s)
    ensures SortedByName(Insert(x, s))
  {
    var r := Insert(x, s);
    if s == [] {
    } else if LessEq(x.resourceType, s[0].resourceType) {
      forall i, j | 0 <= i < j < |r| ensures LessEq(r[i].resourceType, r[j].resourceType) {
        if i == 0 && j > 1 {
          LessEqTransitive(x.resourceType, s[0].resourceType, s[j - 1].resourceType);
        } else if i > 0 {
          assert r[i] == s[i - 1] && r[j] == s[j - 1];
        }
      }
    } else {
      var rest := Insert(x, s[1..]);
      assert r == [s[0]] + rest;
      InsertSorted(x, s[1..]);
      InsertPermutation(x, s[1..]);
      LessEqTotal(x.resourceType, s[0].resourceType);
      InsertAbove(s[0], x, s[1..], rest);
      forall i, j | 0 <= i < j < |r| ensures LessEq(r[i].resourceType, r[j].resourceType) {
        if i > 0 {
          assert r[i] == rest[i - 1] && r[j] == rest[j - 1];
        } else {
          assert r[j] == rest[j - 1];
        }
      }
    }
  }

  /** `sorted(amounts, key=lambda a: a["resource_type"]["name"])` (a rearrangement:
      `SortByNamePermutation`; ascending: `SortByNameSorted`; stable: `SortByNameStable`). */
  function SortByName(s: seq<Amount>): (r: seq<Amount>)
    ensures |r| == |s|
  {
    if s == [] then [] else Insert(s[0], SortByName(s[1..]))
  }

  /** The sort keeps every amount, as often as it occurs. */
  lemma {:induction false} SortByNamePermutation(s: seq<Amount>)
    ensures multiset(SortByName(s)) == multiset(s)
  {
    if s != [] {
      SortByNamePermutation(s[1..]);
      InsertPermutation(s[0], SortByName(s[1..]));
      assert s == [s[0]] + s[1..];
    }
  }

  /** The sort's result is in ascending order of resource-type name. */
  lemma {:induction false} SortByNameSorted(s: seq<Amount>)
    ensures SortedByName(SortByName(s))
  {
    if s != [] {
      SortByNameSorted(s[1..]);
      InsertSorted(s[0], SortByName(s[1..]));
    }
  }

  /** The amounts of one resource type, in their order. */
  function WithName(s: seq<Amount>, name: string): seq<Amount>
  {
    if s == [] then []
    else (if s[0].resourceType == name then [s[0]] else []) + WithName(s[1..], name)
  }

  lemma {:induction false} InsertWithName(x: Amount, s: seq<Amount>, name: string)
    ensures WithName(Insert(x, s), name)
         == if x.resourceType == name then [x] + WithName(s, name) else WithName(s, name)
  {
    if s == [] || LessEq(x.resourceType, s[0].resourceType) {
      assert ([x] + s)[1..] == s;
    } else {
      LessEqReflexive(x.resourceType);
      InsertWithName(x, s[1..], name);
      assert ([s[0]] + Insert(x, s[1..]))[1..] == Insert(x, s[1..]);
    }
  }

  /** The sort is stable: amounts of the same resource type keep their order. */
  lemma {:induction false} SortByNameStable(s: seq<Amount>, name: string)
    ensures WithName(SortByName(s), name) == WithName(s, name)
  {
    if s != [] {
      SortByNameStable(s[1..], name);
      InsertWithName(s[0], SortByName(s[1..]), name);
    }
  }

  /** `"    {0}: {1}".format(name, value)`. */
  function AmountLine(a: Amount): string
  {
    "    " + a.resourceType + ": " + a.value
  }

  /** One line per amount, in the order given. */
  function AmountLines(s: seq<Amount>): (lines: seq<string>)
    ensures |lines| == |s|
    ensures forall i :: 0 <= i < |s| ==> lines[i] == AmountLine(s[i])
  {
    seq(|s|, i requires 0 <= i < |s| => AmountLine(s[i]))
  }

  /** A missing `quotas` or `usages` key counts as an empty list. */
  function Present(amounts: Option<seq<Amount>>): seq<Amount>
  {
    if amounts.Some? then amounts.value else []
  }

  /** The lines `display_subscription` prints. */
  function SubscriptionLines(sub: Subscription): seq<string>
  {
    ["Effective Starting: " + sub.effectiveStart, "Expires At: " + sub.effectiveEnd,
     "Plan: " + sub.planName, "Quotas:"]
    + AmountLines(SortByName(Present(sub.quotas)))
    + ["Usages:"]
    + AmountLines(SortByName(Present(sub.usages)))
  }

  /** Where the parts of `head + first + [middle] + second` sit. */
  lemma SectionPositions(head: seq<string>, first: seq<string>, middle: string, second: seq<string>)
    ensures var lines := head + first + [middle] + second;
      && |lines| == |head| + |first| + 1 + |second|
      && lines[..|head|] == head
      && (forall i :: 0 <= i < |first| ==> lines[|head| + i] == first[i])
      && lines[|head| + |first|] == middle
      && (forall i :: 0 <= i < |second| ==> lines[|head| + |first| + 1 + i] == second[i])
  {
    var lines := head + first + [middle] + second;
    assert lines[..|head|] == head;
  }

  /** The layout of a displayed subscription: start date, end date, plan name and the quotas
      header come first and in that order; the "Usages:" header follows one line per quota;
      each section lists its amounts in `SortByName` order (ascending, every amount once);
      a missing key gives an empty section. */
  lemma SubscriptionLayout(sub: Subscription)
    ensures var lines := SubscriptionLines(sub);
      var quotas := SortByName(Present(sub.quotas));
      var usages := SortByName(Present(sub.usages));
      && |lines| == 5 + |Present(sub.quotas)| + |Present(sub.usages)|
      && lines[0] == "Effective Starting: " + sub.effectiveStart
      && lines[1] == "Expires At: " + sub.effectiveEnd
      && lines[2] == "Plan: " + sub.planName
      && lines[3] == "Quotas:"
      && lines[4 + |quotas|] == "Usages:"
      && (forall i :: 0 <= i < |quotas| ==> lines[4 + i] == AmountLine(quotas[i]))
      && (forall i :: 0 <= i < |usages| ==> lines[5 + |quotas| + i] == AmountLine(usages[i]))
      && (sub.quotas.None? ==> lines[4] == "Usages:")
      && (sub.usages.None? ==> |lines| == 5 + |quotas|)
      && SortedByName(quotas) && SortedByName(usages)
  {
    SortByNameSorted(Present(sub.quotas));
    SortByNameSorted(Present(sub.usages));
    var head := ["Effective Starting: " + sub.effectiveStart, "Expires At: " + sub.effectiveEnd,
                 "Plan: " + sub.planName, "Quotas:"];
    var q := AmountLines(SortByName(Present(sub.quotas)));
    var u := AmountLines(SortByName(Present(sub.usages)));
    SectionPositions(head, q, "Usages:", u);
    var lines := SubscriptionLines(sub);
    assert lines[..4] == head;
    assert lines[0] == head[0] && lines[1] == head[1] && lines[2] == head[2] && lines[3] == head[3];
  }

  /** The lines of one amount section, written one by one in sorted order. */
  method RenderAmounts(amounts: seq<Amount>) returns (lines: seq<string>)
    ensures lines == AmountLines(SortByName(amounts))
  {
    var sorted := SortByName(amounts);
    lines := [];
    for i := 0 to |sorted|
      invariant lines == AmountLines(sorted[..i])
    {
      lines := lines + [AmountLine(sorted[i])];
    }
    assert sorted[..|sorted|] == sorted;
  }

  /** `display_subscription`. */
  method DisplaySubscription(sub: Subscription) returns (lines: seq<string>)
    ensures lines == SubscriptionLines(sub)
  {
    lines := ["Effective Starting: " + sub.effectiveStart];
    lines := lines + ["Expires At: " + sub.effectiveEnd];
    lines := lines + ["Plan: " + sub.planName];
    lines := lines + ["Quotas:"];
    var quotas := RenderAmounts(Present(sub.quotas));
    lines := lines + quotas;
    lines := lines + ["Usages:"];
    var usages := RenderAmounts(Present(sub.usages));
    lines := lines + usages;
  }

  /** A plan's name line followed by its quota defaults sorted by name. */
  function PlanBlock(plan: Plan): seq<string>
  {
    [plan.name + ":"] + AmountLines(SortByName(plan.quotaDefaults))
  }

  /** The lines `list_plans` prints: the plans' blocks in the order the API gave them. */
  function PlansLines(plans: seq<Plan>): seq<string>
  {
    if plans == [] then [] else PlansLines(plans[..|plans| - 1]) + PlanBlock(plans[|plans| - 1])
  }

  /** The first plan's block comes first: plans are listed in API order. */
  lemma {:induction false} PlansInApiOrder(plan: Plan, plans: seq<Plan>)
    ensures PlansLines([plan] + plans) == PlanBlock(plan) + PlansLines(plans)
    decreases |plans|
  {
    if plans != [] {
      var all := [plan] + plans;
      var init := plans[..|plans| - 1];
      var last := plans[|plans| - 1];
      assert all[..|all| - 1] == [plan] + init;
      assert all[|all| - 1] == last;
      assert PlansLines(all) == PlansLines([plan] + init) + PlanBlock(last);
      PlansInApiOrder(plan, init);
      assert PlansLines(plans) == PlansLines(init) + PlanBlock(last);
    } else {
      assert [plan] + plans == [plan];
      assert [plan][..0] == [];
    }
  }

  /** The rendering loop of `list_plans`. */
  method RenderPlans(plans: seq<Plan>) returns (lines: seq<string>)
    ensures lines == PlansLines(plans)
  {
    lines := [];
    for i := 0 to |plans|
      invariant lines == PlansLines(plans[..i])
    {
      assert plans[..i + 1][..i] == plans[..i];
      var defaults := RenderAmounts(plans[i].quotaDefaults);
      lines := lines + [plans[i].name + ":"] + defaults;
    }
    assert plans[..|plans|] == plans;
  }

  function RenderedPlans(r: Result<seq<Plan>>): Result<seq<string>>
  {
    match r
    case Ok(plans) => Ok(PlansLines(plans))
    case Err(e) => Err(e)
  }

  function Displayed(r: Result<Subscription>): Result<seq<string>>
  {
    match r
    case Ok(sub) => Ok(SubscriptionLines(sub))
    case Err(e) => Err(e)
  }

  /** The `list_plans` command: fetch the plans, then print them. */
  method ListPlans(s: Session, environment: string, now: int) returns (r: Result<seq<string>>)
    modifies s
    ensures r == RenderedPlans(AsPlans(FetchStep(s.cfg, old(s.State()), environment, PlansPath, now).result))
    ensures s.State() == FetchStep(s.cfg, old(s.State()), environment, PlansPath, now).store
  {
    var plans := s.ListPlans(environment, now);
    if plans.Err? {
      return Err(plans.error);
    }
    var lines := RenderPlans(plans.value);
    r := Ok(lines);
  }

  /** The two subscription endpoints. */
  datatype Endpoint = SelfPlan | AdminPlan(username: string)

  /** The routing of `get_subscription`: the caller's own endpoint when no user is named or
      the named user is the caller's claimed username; the admin endpoint otherwise, a
      missing claim included. */
  function Route(user: Option<string>, caller: Option<string>): (e: Endpoint)
    ensures e == SelfPlan <==> user.None? || caller == user
    ensures e.AdminPlan? ==> user == Some(e.username) && caller != user
  {
    if user.Some? && caller != user then AdminPlan(user.value) else SelfPlan
  }

  /** The endpoint an `Endpoint` names, as the client's API calls build it. */
  function EndpointPath(e: Endpoint): string
  {
    match e
    case SelfPlan => SelfPlanPath
    case AdminPlan(username) => AdminPlanPath(username)
  }

  /** The caller's claimed username, read from the stripped credential. */
  function CallerName(cfg: Config, st: Store, environment: string, now: int): (r: Step<Option<string>>)
    ensures KeepsOtherFiles(st.files, r.store.files, AuthFile(cfg.home, environment))
  {
    var token := FetchToken(cfg, st, environment, now);
    match StripToken(token.result)
    case Err(e) => Step(Err(e), token.store)
    case Ok(credential) => Step(Jwt.GetUsername(Some(credential), cfg.decode), token.store)
  }

  /** The effect of `get_subscription`: with no user, straight to the caller's endpoint; with
      a user, the caller's name first, then the endpoint `Route` picks. The source reads the
      clock afresh in each claims check, so the caller's name is obtained at `now` and the
      subscription fetched at `later`. */
  function SubscriptionStep(cfg: Config, st: Store, environment: string, user: Option<string>,
                            now: int, later: int): (r: Step<Subscription>)
    ensures KeepsOtherFiles(st.files, r.store.files, AuthFile(cfg.home, environment))
  {
    if user.None? then
      var fetched := FetchStep(cfg, st, environment, SelfPlanPath, now);
      Step(AsSubscription(fetched.result), fetched.store)
    else
      var caller := CallerName(cfg, st, environment, now);
      match caller.result
      case Err(e) => Step(Err(e), caller.store)
      case Ok(name) =>
        var fetched := FetchStep(cfg, caller.store, environment, EndpointPath(Route(user, name)), later);
        KeepsOtherFilesTransitive(st.files, caller.store.files, fetched.store.files, AuthFile(cfg.home, environment));
        Step(AsSubscription(fetched.result), fetched.store)
  }

  /** With no user named the caller's username is never consulted: the command is exactly a
      fetch from the caller's own endpoint, and only one credential lookup happens. */
  lemma NoUserSelfFetchOnly(cfg: Config, st: Store, environment: string, now: int, later: int)
    ensures var step := SubscriptionStep(cfg, st, environment, None, now, later);
      var fetched := FetchStep(cfg, st, environment, SelfPlanPath, now);
      step == Step(AsSubscription(fetched.result), fetched.store)
  {
  }

  /** Every branch of `get_subscription` that displays a subscription sends exactly one API
      request, to the endpoint `Route` picks; obtaining the caller's name sends none. */
  lemma OneSubscriptionRequest(cfg: Config, st: Store, environment: string, user: Option<string>,
                               now: int, later: int)
    ensures var step := SubscriptionStep(cfg, st, environment, user, now, later);
      var caller := if user.None? || CallerName(cfg, st, environment, now).result.Err? then None
                    else CallerName(cfg, st, environment, now).result.value;
      step.result.Ok? ==>
        ApiUris(step.store.requests)
        == ApiUris(st.requests) + [TerrainUri(environment, EndpointPath(Route(user, caller))).value]
  {
    var step := SubscriptionStep(cfg, st, environment, user, now, later);
    if user.None? {
      FetchSendsOneApiCall(cfg, st, environment, SelfPlanPath, now);
    } else if step.result.Ok? {
      var caller := CallerName(cfg, st, environment, now);
      FetchTokenSendsNoApiCall(cfg, st, environment, now);
      var path := EndpointPath(Route(user, caller.result.value));
      FetchSendsOneApiCall(cfg, caller.store, environment, path, later);
    }
  }

  /** Whatever the routed endpoint replies decides the command. Once the caller's name (for
      a named user), the URI and the credential are obtained, exactly one API request goes
      out, to the routed endpoint, and its reply is the result: a rejection ends the command
      with its HTTP failure, with no second request to the other endpoint. A failure to
      obtain the caller's name ends the command with that failure and sends no API request;
      an unknown environment or a failure to obtain the credential for the GET ends it before
      the request, with that failure. */
  lemma RoutedReplyDecides(cfg: Config, st: Store, environment: string, user: Option<string>,
                           now: int, later: int)
    ensures var step := SubscriptionStep(cfg, st, environment, user, now, later);
      var caller := CallerName(cfg, st, environment, now);
      && (user.Some? && caller.result.Err? ==>
            step.result == Err(caller.result.error) && ApiUris(step.store.requests) == ApiUris(st.requests))
      && (user.None? || caller.result.Ok? ==>
            var name := if user.None? then None else caller.result.value;
            var uri := TerrainUri(environment, EndpointPath(Route(user, name)));
            var base := if user.None? then st else caller.store;
            var at := if user.None? then now else later;
            var token := FetchToken(cfg, base, environment, at);
            && (uri.Ok? && token.result.Ok? ==>
                  && ApiUris(step.store.requests) == ApiUris(st.requests) + [uri.value]
                  && step.result == AsSubscription(Replied(cfg.api(uri.value))))
            && (uri.Err? ==> step == Step(Err(InvalidEnvironment(environment)), base))
            && (uri.Ok? && token.result.Err? ==> step == Step(Err(token.result.error), token.store)))
  {
    if user.None? {
      FetchSendsOneApiCall(cfg, st, environment, SelfPlanPath, now);
      FetchFailsBeforeRequest(cfg, st, environment, SelfPlanPath, now);
    } else {
      var caller := CallerName(cfg, st, environment, now);
      FetchTokenSendsNoApiCall(cfg, st, environment, now);
      if caller.result.Ok? {
        var path := EndpointPath(Route(user, caller.result.value));
        FetchSendsOneApiCall(cfg, caller.store, environment, path, later);
        FetchFailsBeforeRequest(cfg, caller.store, environment, path, later);
      }
    }
  }

  /** A rejected admin request propagates: the command fails with its HTTP status after one
      request to the admin endpoint, and the caller's own endpoint is never asked. */
  lemma AdminRejectedPropagates(cfg: Config, st: Store, environment: string, user: string,
                                now: int, later: int, status: int)
    requires environment == "prod" || environment == "qa"
    requires CallerName(cfg, st, environment, now).result.Ok?
    requires CallerName(cfg, st, environment, now).result.value != Some(user)
    requires cfg.api(TerrainUri(environment, AdminPlanPath(user)).value) == Rejected(status)
    requires FetchToken(cfg, CallerName(cfg, st, environment, now).store, environment, later).result.Ok?
    ensures var step := SubscriptionStep(cfg, st, environment, Some(user), now, later);
      && step.result == Err(HttpError(status))
      && ApiUris(step.store.requests) == ApiUris(st.requests) + [TerrainUri(environment, AdminPlanPath(user)).value]
  {
    var caller := CallerName(cfg, st, environment, now);
    FetchTokenSendsNoApiCall(cfg, st, environment, now);
    FetchSendsOneApiCall(cfg, caller.store, environment, AdminPlanPath(user), later);
  }

  /** The `get_subscription` command; the two credential lookups of a named user read the
      clock at `now` and at `later`. */
  method GetSubscription(s: Session, environment: string, user: Option<string>, now: int, later: int)
    returns (r: Result<seq<string>>)
    modifies s
    ensures r == Displayed(SubscriptionStep(s.cfg, old(s.State()), environment, user, now, later).result)
    ensures s.State() == SubscriptionStep(s.cfg, old(s.State()), environment, user, now, later).store
  {
    var at := now;
    if user.Some? {
      var token := s.GetAccessToken(environment, now);
      if token.Err? {
        return Err(token.error);
      }
      var caller := Jwt.GetUsername(Some(token.value), s.cfg.decode);
      if caller.Err? {
        return Err(caller.error);
      }
      if caller.value != user {
        var other := s.AdminGetSubscription(environment, user.value, later);
        if other.Err? {
          return Err(other.error);
        }
        var lines := DisplaySubscription(other.value);
        return Ok(lines);
      }
      at := later;
    }
    var own := s.GetSubscription(environment, at);
    if own.Err? {
      return Err(own.error);
    }
    var lines := DisplaySubscription(own.value);
    r := Ok(lines);
  }

  /** `list_module_subcommands`: the names that reach this module, each once, none of them
      the registry's own `help`. */
  function ListModuleSubcommands(): (names: seq<string>)
    ensures |names| == 4 && names[0] == "subscriptions"
    ensures forall i, j :: 0 <= i < j < |names| ==> names[i] != names[j]
    ensures "help" !in names
  {
    ["subscriptions", "subscription", "sub", "subs"]
  }
}
