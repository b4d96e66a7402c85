/**
 EnsureReadOnlyRBAC of internal/capi/readonly.go against an API server whose calls may fail:
 a call may be refused, or be carried out with its answer lost.
 */
module Rbac {
  import opened Basics

  datatype Rule = Rule(apiGroups: seq<string>, resources: seq<string>, nonResourceURLs: seq<string>,
                       verbs: seq<string>)
  datatype RoleRef = RoleRef(apiGroup: string, kind: string, name: string)
  datatype Subject = Subject(kind: string, name: string, namespace: string)
  datatype Binding = Binding(roleRef: RoleRef, subjects: seq<Subject>)

  const READ_ONLY_NAME := "capi-shell-mcp-read-only"
  const READ_ONLY_NAMESPACE := "kube-system"
  const READ_ONLY_RULES := [
    Rule(["*"], ["*"], [], ["get", "list", "watch"]),
    Rule([], [], ["*"], ["get"])]
  const READ_ONLY_BINDING := Binding(
    RoleRef("rbac.authorization.k8s.io", "ClusterRole", READ_ONLY_NAME),
    [Subject("ServiceAccount", READ_ONLY_NAME, READ_ONLY_NAMESPACE)])

  // The three objects of these names; an account carries whatever others put on it.
  datatype Objects = Objects(account: Option<string>, role: Option<seq<Rule>>, binding: Option<Binding>,
                             deletions: nat) {
    // Bound to some other role: roleRef cannot be updated.
    predicate Stale() {
      binding.Some? && binding.value.roleRef != READ_ONLY_BINDING.roleRef
    }
  }

  datatype Call = CreateAccount | CreateRole | UpdateRole | CreateBinding | UpdateBinding | DeleteBinding
  datatype Status = Done | AlreadyExists | NotFound | ImmutableRoleRef | Unexpected
  datatype Fault = NoFault | Refused | AnswerLost

  // What the API server does with a call.
  function Perform(o: Objects, call: Call): (Objects, Status) {
    match call
    case CreateAccount =>
      if o.account.Some? then (o, AlreadyExists) else (o.(account := Some("")), Done)
    case CreateRole =>
      if o.role.Some? then (o, AlreadyExists) else (o.(role := Some(READ_ONLY_RULES)), Done)
    case UpdateRole =>
      if o.role.None? then (o, NotFound) else (o.(role := Some(READ_ONLY_RULES)), Done)
    case CreateBinding =>
      if o.binding.Some? then (o, AlreadyExists) else (o.(binding := Some(READ_ONLY_BINDING)), Done)
    case UpdateBinding =>
      if o.binding.None? then (o, NotFound)
      else if o.Stale() then (o, ImmutableRoleRef)
      else (o.(binding := Some(READ_ONLY_BINDING)), Done)
    case DeleteBinding =>
      if o.binding.None? then (o, NotFound) else (o.(binding := None, deletions := o.deletions + 1), Done)
  }

  class ApiServer {
    var objects: Objects
    var calls: nat
    const fault: nat -> Fault // what befalls the n-th call

    constructor (objects: Objects, fault: nat -> Fault)
      ensures this.objects == objects && this.fault == fault && calls == 0
    {
      this.objects, this.fault, calls := objects, fault, 0;
    }

    method Do(call: Call) returns (status: Status)
      modifies this
      ensures calls == old(calls) + 1
      ensures objects == if fault(old(calls)) == Refused then old(objects) else Perform(old(objects), call).0
      ensures status == if fault(old(calls)) == NoFault then Perform(old(objects), call).1 else Unexpected
    {
      var (after, answer) := Perform(objects, call);
      status := if fault(calls) == NoFault then answer else Unexpected;
      objects := if fault(calls) == Refused then objects else after;
      calls := calls + 1;
    }
  }

  // What a run is for: every object as desired, an existing account left as it is, and a
  // binding deleted only if its roleRef is the wrong one.
  function Goal(o: Objects): Objects {
    Objects(Some(if o.account.Some? then o.account.value else ""), Some(READ_ONLY_RULES), Some(READ_ONLY_BINDING),
            o.deletions + if o.Stale() then 1 else 0)
  }

  // What the binding lets a service account do: the rules of the cluster role it names.
  ghost predicate May(o: Objects, name: string, namespace: string, verb: string, rule: Rule) {
    && o.binding.Some? && Subject("ServiceAccount", name, namespace) in o.binding.value.subjects
    && o.binding.value.roleRef == RoleRef("rbac.authorization.k8s.io", "ClusterRole", READ_ONLY_NAME)
    && o.role.Some? && rule in o.role.value && verb in rule.verbs
  }

  // The account of the reconcile may do this to every resource, or with every non-resource URL.
  ghost predicate MayEveryResource(o: Objects, verb: string) {
    exists rule :: May(o, READ_ONLY_NAME, READ_ONLY_NAMESPACE, verb, rule)
      && "*" in rule.apiGroups && "*" in rule.resources
  }

  ghost predicate MayEveryURL(o: Objects, verb: string) {
    exists rule :: May(o, READ_ONLY_NAME, READ_ONLY_NAMESPACE, verb, rule) && "*" in rule.nonResourceURLs
  }

  /** Where a run ends, the account it creates, and no other subject, may get, list and watch
      every resource and get every non-resource URL, and nothing else. */
  lemma GoalIsReadOnly(o: Objects)
    ensures Goal(o).account.Some?
    ensures forall name, namespace, verb, rule :: May(Goal(o), name, namespace, verb, rule) ==>
      && name == READ_ONLY_NAME && namespace == READ_ONLY_NAMESPACE
      && (verb == "get" || (rule.nonResourceURLs == [] && (verb == "list" || verb == "watch")))
    ensures MayEveryResource(Goal(o), "get") && MayEveryResource(Goal(o), "list")
    ensures MayEveryResource(Goal(o), "watch") && MayEveryURL(Goal(o), "get")
  {
    var all, urls := READ_ONLY_RULES[0], READ_ONLY_RULES[1];
    assert all in READ_ONLY_RULES && urls in READ_ONLY_RULES;
    assert READ_ONLY_BINDING.subjects[0] in READ_ONLY_BINDING.subjects;
    assert all.apiGroups[0] == "*" && all.resources[0] == "*" && urls.nonResourceURLs[0] == "*";
    assert all.verbs[0] == "get" && all.verbs[1] == "list" && all.verbs[2] == "watch" && urls.verbs[0] == "get";
    assert May(Goal(o), READ_ONLY_NAME, READ_ONLY_NAMESPACE, "get", all);
    assert May(Goal(o), READ_ONLY_NAME, READ_ONLY_NAMESPACE, "list", all);
    assert May(Goal(o), READ_ONLY_NAME, READ_ONLY_NAMESPACE, "watch", all);
    assert May(Goal(o), READ_ONLY_NAME, READ_ONLY_NAMESPACE, "get", urls);
  }

  /** A run that succeeds keeps the account if there is one, and deletes a binding exactly if one
      exists with another roleRef. */
  lemma GoalKeepsAndDeletes(o: Objects)
    ensures o.account.Some? ==> Goal(o).account == o.account
    ensures Goal(o).deletions == o.deletions ||
      (Goal(o).deletions == o.deletions + 1 && o.binding.Some?)
    ensures Goal(o).deletions == o.deletions + 1 <==>
      o.binding.Some? && o.binding.value.roleRef != RoleRef("rbac.authorization.k8s.io", "ClusterRole", READ_ONLY_NAME)
  {
  }

  // Everything a run may leave behind, wherever it is interrupted.
  predicate MayLeave(o: Objects, p: Objects) {
    var g := Goal(o);
    || p == o || p == o.(account := g.account) || p == o.(account := g.account, role := g.role) || p == g
    || (o.Stale() && p == g.(binding := None))
  }

  method EnsureReadOnlyRBAC(api: ApiServer) returns (ok: bool)
    modifies api
    ensures MayLeave(old(api.objects), api.objects)
    ensures ok ==> api.objects == Goal(old(api.objects))
    ensures ok <==> forall n :: old(api.calls) <= n < api.calls ==> api.fault(n) == NoFault
    ensures old(api.calls) < api.calls <= old(api.calls) + 7
  {
    ghost var first, g := api.objects, Goal(api.objects);
    var status := api.Do(CreateAccount);
    if status != Done && status != AlreadyExists {
      return false;
    }

    assert api.objects == first.(account := g.account);
    status := api.Do(CreateRole);
    if status != Done {
      if status != AlreadyExists {
        return false;
      }
      status := api.Do(UpdateRole);
      if status != Done {
        return false;
      }
    }

    assert api.objects == first.(account := g.account, role := g.role);
    status := api.Do(CreateBinding);
    if status == Done {
      return true;
    }
    if status != AlreadyExists {
      return false;
    }

    status := api.Do(UpdateBinding);
    if status != Done {
      if status != ImmutableRoleRef {
        return false;
      }
      status := api.Do(DeleteBinding);
      if status != Done {
        return false;
      }
      status := api.Do(CreateBinding);
      if status != Done {
        return false;
      }
    }
    return true;
  }

  /** What an interrupted run leaves behind changes neither where a later run ends nor what it
      may leave behind itself: in particular the stale binding is deleted once in all. */
  lemma ProgressKeepsGoal(o: Objects, p: Objects)
    requires MayLeave(o, p)
    ensures Goal(p) == Goal(o)
    ensures forall q :: MayLeave(p, q) ==> MayLeave(o, q)
  {
  }

  /** After any number of runs, each interrupted anywhere or not at all, a run that succeeds
      ends where it would have ended on the first state. */
  lemma {:induction false} InterruptedRunsConverge(states: seq<Objects>)
    requires states != []
    requires forall i :: 0 < i < |states| ==> MayLeave(states[i - 1], states[i])
    ensures MayLeave(states[0], states[|states| - 1])
    ensures Goal(states[|states| - 1]) == Goal(states[0])
  {
    var n := |states| - 1;
    if n == 0 {
    } else {
      InterruptedRunsConverge(states[..n]);
      ProgressKeepsGoal(states[0], states[n - 1]);
      ProgressKeepsGoal(states[0], states[n]);
    }
  }

  /** Once a run has succeeded, another, interrupted or not, changes and deletes nothing. */
  lemma SecondRunChangesNothing(o: Objects, p: Objects)
    requires MayLeave(Goal(o), p)
    ensures p == Goal(o)
  {
  }
}
