/**
 The permission policy of an execution agent, and the walk from a native child up to its root.
 */
module ExecutionPolicy {
  import opened Wrappers

  datatype Effect = Allow | Ask | Deny
  datatype Rule = Rule(action: string, resource: string, effect: Effect)

  /** The base policy, the authored rules, and no browser. */
  function ExecutionPermissions(authored: seq<Rule>): seq<Rule> {
    [Rule("*", "*", Allow),
     Rule("external_directory", "*", Ask),
     Rule("read", "*.env", Ask),
     Rule("read", "*.env.*", Ask),
     Rule("read", "*.env.example", Allow)]
    + authored + [Rule("browser", "*", Deny)]
  }

  predicate NativeDeny(rule: Rule) {
    rule.effect == Deny && ((rule.action == "browser" && rule.resource == "*") || (rule.action == "skill" && rule.resource == "browser"))
  }

  predicate ExecutionPermissionsMatch(actual: seq<Rule>, expected: seq<Rule>) {
    var rendered := ExecutionPermissions(expected);
    && rendered <= actual
    && forall i :: |rendered| <= i < |actual| ==> NativeDeny(actual[i])
  }

  /** How the native runtime matches a pattern: a star matches everything, and a word without one only itself. */
  ghost predicate Matcher(matches: (string, string) -> bool) {
    && (forall x :: matches("*", x))
    && (forall w, x :: '*' !in w ==> (matches(w, x) <==> w == x))
  }

  predicate Applies(matches: (string, string) -> bool, rule: Rule, action: string, resource: string) {
    matches(rule.action, action) && matches(rule.resource, resource)
  }

  /** The last rule that applies decides. */
  function Decide(matches: (string, string) -> bool, rules: seq<Rule>, action: string, resource: string): Option<Effect> {
    if rules == [] then None
    else
      var last := rules[|rules| - 1];
      if Applies(matches, last, action, resource) then Some(last.effect)
      else Decide(matches, rules[..|rules| - 1], action, resource)
  }

  lemma {:induction false} DecideConcat(matches: (string, string) -> bool, a: seq<Rule>, b: seq<Rule>, action: string, resource: string)
    ensures Decide(matches, a + b, action, resource) ==
            var late := Decide(matches, b, action, resource);
            if late.Some? then late else Decide(matches, a, action, resource)
    decreases |b|
  {
    if b == [] {
      assert a + b == a;
    } else {
      var front := b[..|b| - 1];
      assert (a + b)[..|a + b| - 1] == a + front;
      assert (a + b)[|a + b| - 1] == b[|b| - 1];
      DecideConcat(matches, a, front, action, resource);
    }
  }

  lemma {:induction false} DeniesOnly(matches: (string, string) -> bool, rules: seq<Rule>, action: string, resource: string)
    requires forall i :: 0 <= i < |rules| ==> NativeDeny(rules[i])
    ensures Decide(matches, rules, action, resource) ==
            if exists i :: 0 <= i < |rules| && Applies(matches, rules[i], action, resource) then Some(Deny) else None
    decreases |rules|
  {
    if rules != [] {
      var front := rules[..|rules| - 1];
      DeniesOnly(matches, front, action, resource);
      if exists i :: 0 <= i < |front| && Applies(matches, front[i], action, resource) {
        var i :| 0 <= i < |front| && Applies(matches, front[i], action, resource);
        assert Applies(matches, rules[i], action, resource);
      }
      if exists i :: 0 <= i < |rules| && Applies(matches, rules[i], action, resource) {
        var i :| 0 <= i < |rules| && Applies(matches, rules[i], action, resource);
        if i < |front| { assert Applies(matches, front[i], action, resource); }
      }
    }
  }

  /** Whatever list the runtime shows, if it is accepted then it decides every action as rendered,
      except where one of the appended native rules applies, and there it denies. */
  lemma AcceptedDecides(matches: (string, string) -> bool, actual: seq<Rule>, expected: seq<Rule>, action: string, resource: string)
    requires ExecutionPermissionsMatch(actual, expected)
    ensures
      var rendered := ExecutionPermissions(expected);
      var appended := exists i :: |rendered| <= i < |actual| && Applies(matches, actual[i], action, resource);
      Decide(matches, actual, action, resource) == if appended then Some(Deny) else Decide(matches, rendered, action, resource)
  {
    hide ExecutionPermissions, NativeDeny, Applies;
    var rendered := ExecutionPermissions(expected);
    var rest := actual[|rendered|..];
    assert actual == rendered + rest;
    forall i | 0 <= i < |rest| ensures NativeDeny(rest[i]) { assert rest[i] == actual[|rendered| + i]; }
    DecideConcat(matches, rendered, rest, action, resource);
    DeniesOnly(matches, rest, action, resource);
    if exists i :: 0 <= i < |rest| && Applies(matches, rest[i], action, resource) {
      var i :| 0 <= i < |rest| && Applies(matches, rest[i], action, resource);
      assert Applies(matches, actual[|rendered| + i], action, resource);
    }
    if exists i :: |rendered| <= i < |actual| && Applies(matches, actual[i], action, resource) {
      var i :| |rendered| <= i < |actual| && Applies(matches, actual[i], action, resource);
      assert rest[i - |rendered|] == actual[i];
    }
  }

  /** Exactly what is accepted: the rendered list, and after it only denials of the browser and of its skill. */
  lemma AcceptedIff(actual: seq<Rule>, expected: seq<Rule>)
    ensures ExecutionPermissionsMatch(actual, expected) <==>
      && |actual| >= |expected| + 6
      && actual[..|expected| + 6] == ExecutionPermissions(expected)
      && forall i :: |expected| + 6 <= i < |actual| ==> actual[i] == Rule("browser", "*", Deny) || actual[i] == Rule("skill", "browser", Deny)
  {
    assert |ExecutionPermissions(expected)| == |expected| + 6;
  }

  /** Without any rule of the user: files outside the directory and environment files are asked for, but for their
      examples, and everything else is allowed. */
  function BaseDecision(matches: (string, string) -> bool, action: string, resource: string): Effect {
    if action == "external_directory" then Ask
    else if action == "read" && !matches("*.env.example", resource) && (matches("*.env", resource) || matches("*.env.*", resource)) then Ask
    else Allow
  }

  const BASE := [Rule("*", "*", Allow), Rule("external_directory", "*", Ask), Rule("read", "*.env", Ask), Rule("read", "*.env.*", Ask),
                 Rule("read", "*.env.example", Allow)]

  lemma BaseDecides(matches: (string, string) -> bool, action: string, resource: string)
    requires Matcher(matches)
    ensures Decide(matches, BASE, action, resource) == Some(BaseDecision(matches, action, resource))
  {
    hide Matcher;
    assert matches("*", action) && matches("*", resource) && (matches("external_directory", action) <==> action == "external_directory")
      && (matches("read", action) <==> action == "read") by { WordsMatch(matches, action, resource); }
    assert BASE[..4] == [BASE[0], BASE[1], BASE[2], BASE[3]] && BASE[..4][..3] == [BASE[0], BASE[1], BASE[2]];
    assert BASE[..4][..3][..2] == [BASE[0], BASE[1]] && BASE[..4][..3][..2][..1] == [BASE[0]] && BASE[..4][..3][..2][..1][..0] == [];
    var d1 := Decide(matches, [BASE[0]], action, resource);
    assert [BASE[0]][..0] == [] && d1 == Some(Allow);
    var d2 := Decide(matches, BASE[..4][..3][..2], action, resource);
    assert d2 == if action == "external_directory" then Some(Ask) else Some(Allow);
    var d3 := Decide(matches, BASE[..4][..3], action, resource);
    assert d3 == if action == "read" && matches("*.env", resource) then Some(Ask) else d2;
    var d4 := Decide(matches, BASE[..4], action, resource);
    assert d4 == if action == "read" && matches("*.env.*", resource) then Some(Ask) else d3;
  }

  lemma WordsMatch(matches: (string, string) -> bool, action: string, resource: string)
    requires Matcher(matches)
    ensures matches("*", action) && matches("*", resource) && (matches("external_directory", action) <==> action == "external_directory")
    ensures (matches("read", action) <==> action == "read") && (matches("browser", action) <==> action == "browser")
    ensures (matches("skill", action) <==> action == "skill") && (matches("browser", resource) <==> resource == "browser")
  {
  }

  /** The last rule that applies. */
  ghost predicate LastApplying(matches: (string, string) -> bool, rules: seq<Rule>, action: string, resource: string, i: int) {
    0 <= i < |rules| && Applies(matches, rules[i], action, resource) && forall j :: i < j < |rules| ==> !Applies(matches, rules[j], action, resource)
  }

  lemma {:induction false} LastDecides(matches: (string, string) -> bool, rules: seq<Rule>, action: string, resource: string)
    ensures Decide(matches, rules, action, resource).None? <==> forall i :: 0 <= i < |rules| ==> !Applies(matches, rules[i], action, resource)
    ensures forall i :: LastApplying(matches, rules, action, resource, i) ==> Decide(matches, rules, action, resource) == Some(rules[i].effect)
    decreases |rules|
  {
    hide Applies;
    if rules != [] {
      var front := rules[..|rules| - 1];
      LastDecides(matches, front, action, resource);
      if !Applies(matches, rules[|rules| - 1], action, resource) {
        assert forall i :: 0 <= i < |front| ==> front[i] == rules[i];
        forall i | LastApplying(matches, rules, action, resource, i) ensures Decide(matches, rules, action, resource) == Some(rules[i].effect) {
          assert LastApplying(matches, front, action, resource, i);
        }
      }
    }
  }

  /** What an accepted agent may do. The browser is denied, whatever the user wrote; the skill of that name is denied if
      the runtime appended so; otherwise the last rule of the user that applies decides, and the base where none does. */
  lemma PolicyDecides(matches: (string, string) -> bool, actual: seq<Rule>, authored: seq<Rule>, action: string, resource: string)
    requires Matcher(matches) && ExecutionPermissionsMatch(actual, authored)
    ensures
      var decision := Decide(matches, actual, action, resource);
      var suffix := actual[|authored| + 6..];
      if action == "browser" || (action == "skill" && resource == "browser" && Rule("skill", "browser", Deny) in suffix) then
        decision == Some(Deny)
      else
        && (forall i :: LastApplying(matches, authored, action, resource, i) ==> decision == Some(authored[i].effect))
        && ((forall i :: 0 <= i < |authored| ==> !Applies(matches, authored[i], action, resource)) ==>
              decision == Some(BaseDecision(matches, action, resource)))
  {
    hide Matcher, Applies, Decide, BaseDecision;
    var suffix := actual[|authored| + 6..];
    AcceptedIff(actual, authored);
    var late := [Rule("browser", "*", Deny)] + suffix;
    assert actual == BASE + authored + late;
    DecideConcat(matches, BASE + authored, late, action, resource);
    DecideConcat(matches, BASE, authored, action, resource);
    BaseDecides(matches, action, resource);
    LastDecides(matches, authored, action, resource);
    assert late[0] == Rule("browser", "*", Deny);
    assert Rule("skill", "browser", Deny) in late <==> Rule("skill", "browser", Deny) in suffix;
    forall i | 0 <= i < |late| ensures late[i] == Rule("browser", "*", Deny) || late[i] == Rule("skill", "browser", Deny) {
      if i > 0 { assert late[i] == actual[|authored| + 5 + i]; }
    }
    SuffixDecides(matches, late, action, resource);
  }

  /** No authored rule and no native suffix gives an accepted agent the browser. */
  lemma BrowserIsDenied(matches: (string, string) -> bool, actual: seq<Rule>, expected: seq<Rule>, resource: string)
    requires Matcher(matches) && ExecutionPermissionsMatch(actual, expected)
    ensures Decide(matches, actual, "browser", resource) == Some(Deny)
  {
    PolicyDecides(matches, actual, expected, "browser", resource);
  }

  lemma SuffixDecides(matches: (string, string) -> bool, rules: seq<Rule>, action: string, resource: string)
    requires Matcher(matches)
    requires forall i :: 0 <= i < |rules| ==> rules[i] == Rule("browser", "*", Deny) || rules[i] == Rule("skill", "browser", Deny)
    ensures Decide(matches, rules, action, resource) ==
      if (action == "browser" && Rule("browser", "*", Deny) in rules)
         || (action == "skill" && resource == "browser" && Rule("skill", "browser", Deny) in rules) then Some(Deny) else None
  {
    hide Matcher;
    WordsMatch(matches, action, resource);
    DeniesOnly(matches, rules, action, resource);
  }

  // ----- The walk up from a native child

  type Id = nat
  type Agent = nat

  datatype Session = Session(parent: Option<Id>, directory: nat, agent: Agent)

  datatype Root = Root(sessionId: Id, directory: nat, executionAgent: Agent, directChildren: set<Agent>, children: map<Agent, set<Agent>>)

  /** The agents that a session of the tree may delegate to. */
  function Allowed(root: Root, id: Id, s: Session): set<Agent> {
    if id == root.sessionId then root.directChildren
    else if s.agent in root.children then root.children[s.agent] else {}
  }

  /** One step up: inside the root's directory, to a parent that may delegate to the selected agent. */
  predicate StepUp(graph: map<Id, Session>, root: Root, id: Id, selected: Agent, parent: Id) {
    && id in graph && id != root.sessionId && graph[id].parent == Some(parent) && graph[id].directory == root.directory
    && parent in graph
    && (if parent == root.sessionId then selected in root.directChildren
        else graph[parent].agent in root.children && selected in root.children[graph[parent].agent])
  }

  function SelectedAt(graph: map<Id, Session>, path: seq<Id>, agent: Agent, i: nat): Agent
    requires i < |path| && path[i] in graph
  {
    if i == 0 then agent else graph[path[i]].agent
  }

  /** A parent chain from the session to the root that delegates every step of the way. */
  ghost predicate Chain(graph: map<Id, Session>, root: Root, path: seq<Id>, agent: Agent) {
    && path != []
    && (forall i :: 0 <= i < |path| ==> path[i] in graph)
    && (forall i :: 0 <= i < |path| - 1 ==> StepUp(graph, root, path[i], SelectedAt(graph, path, agent, i), path[i + 1]))
    && path[|path| - 1] == root.sessionId
    && graph[root.sessionId].directory == root.directory && graph[root.sessionId].agent == root.executionAgent
  }

  ghost predicate Authorized(graph: map<Id, Session>, root: Root, start: Id, agent: Agent) {
    exists path :: Chain(graph, root, path, agent) && path[0] == start
  }

  lemma ChainUp(graph: map<Id, Session>, root: Root, path: seq<Id>, agent: Agent)
    requires Chain(graph, root, path, agent) && path[0] != root.sessionId
    ensures |path| > 1 && StepUp(graph, root, path[0], agent, path[1])
    ensures Chain(graph, root, path[1..], graph[path[1]].agent)
  {
    assert StepUp(graph, root, path[0], SelectedAt(graph, path, agent, 0), path[1]);
    var rest := path[1..];
    forall i | 0 <= i < |rest| - 1
      ensures StepUp(graph, root, rest[i], SelectedAt(graph, rest, graph[path[1]].agent, i), rest[i + 1])
    {
      assert StepUp(graph, root, path[i + 1], SelectedAt(graph, path, agent, i + 1), path[i + 2]);
    }
  }

  lemma ChainDown(graph: map<Id, Session>, root: Root, id: Id, agent: Agent, path: seq<Id>)
    requires path != [] && path[0] in graph && Chain(graph, root, path, graph[path[0]].agent)
    requires StepUp(graph, root, id, agent, path[0])
    ensures Chain(graph, root, [id] + path, agent)
  {
    var whole := [id] + path;
    forall i | 0 <= i < |whole| - 1
      ensures StepUp(graph, root, whole[i], SelectedAt(graph, whole, agent, i), whole[i + 1])
    {
      if i > 0 {
        assert StepUp(graph, root, path[i - 1], SelectedAt(graph, path, graph[path[0]].agent, i - 1), path[i]);
      }
    }
  }

  /** The parent is unique, so being authorized is passed up, both ways. */
  lemma AuthorizedUp(graph: map<Id, Session>, root: Root, id: Id, agent: Agent, parent: Id)
    requires StepUp(graph, root, id, agent, parent)
    ensures Authorized(graph, root, id, agent) <==> Authorized(graph, root, parent, graph[parent].agent)
  {
    if Authorized(graph, root, id, agent) {
      var path :| Chain(graph, root, path, agent) && path[0] == id;
      ChainUp(graph, root, path, agent);
      assert path[1] == parent && path[1..][0] == parent;
    }
    if Authorized(graph, root, parent, graph[parent].agent) {
      var path :| Chain(graph, root, path, graph[parent].agent) && path[0] == parent;
      ChainDown(graph, root, id, agent, path);
      assert ([id] + path)[0] == id;
    }
  }

  lemma NotAuthorized(graph: map<Id, Session>, root: Root, id: Id, agent: Agent)
    requires id != root.sessionId && forall parent :: !StepUp(graph, root, id, agent, parent)
    ensures !Authorized(graph, root, id, agent)
  {
    if Authorized(graph, root, id, agent) {
      var path :| Chain(graph, root, path, agent) && path[0] == id;
      ChainUp(graph, root, path, agent);
    }
  }

  /** A session seen twice on the way up is on a cycle that never meets the root. */
  ghost predicate Closed(graph: map<Id, Session>, root: Root, seen: set<Id>) {
    forall id :: id in seen ==> id in graph && id != root.sessionId && graph[id].parent.Some? && graph[id].parent.value in seen
  }

  lemma {:induction false} CycleNeverMeets(graph: map<Id, Session>, root: Root, seen: set<Id>, path: seq<Id>, agent: Agent)
    requires Closed(graph, root, seen) && path != [] && path[0] in seen
    ensures !Chain(graph, root, path, agent)
    decreases |path|
  {
    if Chain(graph, root, path, agent) {
      ChainUp(graph, root, path, agent);
      CycleNeverMeets(graph, root, seen, path[1..], graph[path[1]].agent);
    }
  }

  /** The hook's walk. It ends on every finite graph, and passes exactly if there is such a chain. */
  method Ancestry(graph: map<Id, Session>, root: Root, start: Id, agent: Agent) returns (ok: bool)
    ensures ok <==> Authorized(graph, root, start, agent)
  {
    hide Chain;
    if start !in graph {
      assert !Authorized(graph, root, start, agent) by { Absent(graph, root, start, agent); }
      return false;
    }
    var current := start;
    var selected := agent;
    var seen: set<Id> := {};
    while current != root.sessionId
      invariant current in graph && seen <= graph.Keys
      invariant forall id :: id in seen ==> id != root.sessionId && graph[id].parent.Some? && graph[id].parent.value in seen + {current}
      invariant Authorized(graph, root, current, selected) <==> Authorized(graph, root, start, agent)
      decreases graph.Keys - seen
    {
      var session := graph[current];
      if current in seen {
        Cycle(graph, root, seen, current, selected);
        return false;
      }
      if session.parent.None? || session.directory != root.directory || session.parent.value !in graph {
        NotAuthorized(graph, root, current, selected);
        return false;
      }
      seen := seen + {current};
      var parent := session.parent.value;
      if selected !in Allowed(root, parent, graph[parent]) {
        NotAuthorized(graph, root, current, selected);
        return false;
      }
      AuthorizedUp(graph, root, current, selected, parent);
      selected := graph[parent].agent;
      current := parent;
    }
    ok := graph[current].directory == root.directory && graph[current].agent == root.executionAgent;
    AtRoot(graph, root, selected);
  }

  lemma Absent(graph: map<Id, Session>, root: Root, start: Id, agent: Agent)
    requires start !in graph
    ensures !Authorized(graph, root, start, agent)
  {
  }

  lemma Cycle(graph: map<Id, Session>, root: Root, seen: set<Id>, current: Id, agent: Agent)
    requires Closed(graph, root, seen) && current in seen
    ensures !Authorized(graph, root, current, agent)
  {
    forall path | path != [] && path[0] == current ensures !Chain(graph, root, path, agent) {
      CycleNeverMeets(graph, root, seen, path, agent);
    }
  }

  lemma AtRoot(graph: map<Id, Session>, root: Root, agent: Agent)
    requires root.sessionId in graph
    ensures Authorized(graph, root, root.sessionId, agent) <==>
      graph[root.sessionId].directory == root.directory && graph[root.sessionId].agent == root.executionAgent
  {
    if graph[root.sessionId].directory == root.directory && graph[root.sessionId].agent == root.executionAgent {
      assert Chain(graph, root, [root.sessionId], agent) && [root.sessionId][0] == root.sessionId;
    }
  }
}
