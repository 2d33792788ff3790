/** The route configuration: what SetRouteConfig accepts, and which nodes a configuration selects. */
module Route {
  import opened Text

  datatype Node = Node(host: string, ip: string, country: string)

  datatype Config = Config(mode: string, country: string, node: string)

  datatype Reply = Accepted(config: Config) | Refused(reason: string)

  /** strings.ToLower and strings.ToUpper, whatever Unicode version they follow. */
  datatype Letters = Letters(lower: string -> string, upper: string -> string)

  /** The validation of SetRouteConfig. */
  function Validate(letters: Letters, mode: string, country: string, node: string): Reply {
    var m, c, n := letters.lower(TrimSpace(mode)), letters.upper(TrimSpace(country)), TrimSpace(node);
    if m != "auto" && m != "country" && m != "fixed" then Refused("invalid route mode")
    else if m == "country" && c == "" then Refused("country mode requires a country code")
    else if m == "fixed" && n == "" then Refused("fixed mode requires a node hostname or IP")
    else Accepted(Config(m, c, n))
  }

  /** The country codes of a comma-separated list. */
  function Wanted(letters: Letters, country: string): set<string> {
    set part | part in Split(country, ',') && letters.upper(TrimSpace(part)) != "" :: letters.upper(TrimSpace(part))
  }

  function InCountries(letters: Letters, nodes: seq<Node>, wanted: set<string>): seq<Node> {
    if nodes == [] then []
    else
      (if letters.upper(nodes[0].country) in wanted then [nodes[0]] else []) + InCountries(letters, nodes[1..], wanted)
  }

  predicate Named(n: Node, name: string) { n.host == name || n.ip == name }

  function FirstNamed(nodes: seq<Node>, name: string): seq<Node> {
    if nodes == [] then [] else if Named(nodes[0], name) then [nodes[0]] else FirstNamed(nodes[1..], name)
  }

  /** selectCandidates. */
  function Select(letters: Letters, nodes: seq<Node>, config: Config): seq<Node> {
    if config.mode == "country" then InCountries(letters, nodes, Wanted(letters, config.country))
    else if config.mode == "fixed" then FirstNamed(nodes, config.node)
    else nodes
  }

  /** isFixedNode. */
  predicate IsFixed(n: Node, config: Config) { config.node != "" && Named(n, config.node) }

  // ---------- what is selected ----------

  /** The candidates are the nodes at these positions, in order. */
  predicate PickedBy(nodes: seq<Node>, out: seq<Node>, at: seq<nat>) {
    && |at| == |out|
    && (forall k :: 0 <= k < |at| ==> at[k] < |nodes| && nodes[at[k]] == out[k])
    && (forall j, k :: 0 <= j < k < |at| ==> at[j] < at[k])
  }

  predicate HasCountry(letters: Letters, n: Node, wanted: set<string>) { letters.upper(n.country) in wanted }

  function Shifted(at: seq<nat>): (r: seq<nat>)
    ensures |r| == |at|
  {
    seq(|at|, k requires 0 <= k < |at| => at[k] + 1)
  }

  lemma ShiftPicked(nodes: seq<Node>, out: seq<Node>, at: seq<nat>, kept: bool)
    requires nodes != [] && PickedBy(nodes[1..], out, at)
    ensures PickedBy(nodes, (if kept then [nodes[0]] else []) + out, (if kept then [0] else []) + Shifted(at))
  {
  }

  lemma ShiftMember(at: seq<nat>, kept: bool, i: nat)
    ensures i in (if kept then [0] else []) + Shifted(at) <==> if i == 0 then kept else i - 1 in at
  {
    var all := (if kept then [0] else []) + Shifted(at);
    var d := if kept then 1 else 0;
    if i > 0 && i - 1 in at {
      var k :| 0 <= k < |at| && at[k] == i - 1;
      assert all[d + k] == i;
    }
    if i in all {
      var k :| 0 <= k < |all| && all[k] == i;
      assert k >= d ==> all[k] == at[k - d] + 1;
    }
  }

  /** A country filter keeps the benchmarked order and exactly the nodes of the wanted countries. */
  lemma {:induction false} CountriesExact(letters: Letters, nodes: seq<Node>, wanted: set<string>) returns (at: seq<nat>)
    ensures PickedBy(nodes, InCountries(letters, nodes, wanted), at)
    ensures forall i :: 0 <= i < |nodes| ==> (i in at <==> HasCountry(letters, nodes[i], wanted))
  {
    if nodes == [] {
      at := [];
    } else {
      var rest := CountriesExact(letters, nodes[1..], wanted);
      var kept := HasCountry(letters, nodes[0], wanted);
      at := (if kept then [0] else []) + Shifted(rest);
      ShiftPicked(nodes, InCountries(letters, nodes[1..], wanted), rest, kept);
      forall i | 0 <= i < |nodes| ensures i in at <==> HasCountry(letters, nodes[i], wanted) {
        ShiftMember(rest, kept, i);
        assert i > 0 ==> nodes[i] == nodes[1..][i - 1];
      }
    }
  }

  /** A fixed route selects the first node of that name and nothing else. */
  lemma {:induction false} FixedExact(nodes: seq<Node>, name: string)
    ensures |FirstNamed(nodes, name)| <= 1
    ensures FirstNamed(nodes, name) == [] <==> forall i :: 0 <= i < |nodes| ==> !Named(nodes[i], name)
    ensures FirstNamed(nodes, name) != [] ==>
      exists i :: 0 <= i < |nodes| && FirstNamed(nodes, name) == [nodes[i]] && (nodes[i].host == name || nodes[i].ip == name) &&
        forall j :: 0 <= j < i ==> nodes[j].host != name && nodes[j].ip != name
  {
    if nodes != [] {
      FixedExact(nodes[1..], name);
      if Named(nodes[0], name) {
      } else if FirstNamed(nodes[1..], name) != [] {
        var i :| 0 <= i < |nodes[1..]| && FirstNamed(nodes[1..], name) == [nodes[1..][i]] && Named(nodes[1..][i], name) &&
          forall j :: 0 <= j < i ==> !Named(nodes[1..][j], name);
        assert nodes[i + 1] == nodes[1..][i];
        forall j | 0 <= j < i + 1 ensures !Named(nodes[j], name) { if j > 0 { assert nodes[j] == nodes[1..][j - 1]; } }
      } else {
        forall j | 0 <= j < |nodes| ensures !Named(nodes[j], name) { if j > 0 { assert nodes[j] == nodes[1..][j - 1]; } }
      }
    }
  }

  /** A code is wanted exactly if some part between commas, without surrounding white space and in capitals, is it. */
  lemma WantedMeansListed(letters: Letters, country: string, code: string)
    ensures code in Wanted(letters, country) <==>
      code != "" && exists before, part, after :: StandsIn(country, before, part, after, ',') && letters.upper(TrimSpace(part)) == code
  {
    if code in Wanted(letters, country) {
      var part :| part in Split(country, ',') && letters.upper(TrimSpace(part)) == code;
      var before, after := PartStands(country, part, ',');
    }
    if before, part, after :| StandsIn(country, before, part, after, ',') && letters.upper(TrimSpace(part)) == code {
      StandingIsPart(country, before, part, after, ',');
    }
  }

  /** An automatic route selects every node, in order. */
  lemma AutoSelectsAll(letters: Letters, nodes: seq<Node>, config: Config)
    requires config.mode == "auto"
    ensures Select(letters, nodes, config) == nodes
  {
  }

  /** In fixed mode every candidate is the locked node. */
  lemma FixedCandidatesAreFixed(letters: Letters, nodes: seq<Node>, config: Config)
    requires config.mode == "fixed" && config.node != ""
    ensures forall n :: n in Select(letters, nodes, config) ==> IsFixed(n, config)
  {
    FixedExact(nodes, config.node);
  }

  /** What SetRouteConfig accepts in fixed mode locks at most one candidate, and that one counts as fixed. */
  lemma AcceptedFixedLocks(letters: Letters, mode: string, country: string, node: string, nodes: seq<Node>)
    requires Validate(letters, mode, country, node).Accepted?
    ensures var config := Validate(letters, mode, country, node).config;
      && config.mode in {"auto", "country", "fixed"}
      && config.mode == letters.lower(TrimSpace(mode)) && config.country == letters.upper(TrimSpace(country))
      && config.node == TrimSpace(node)
      && (config.mode == "fixed" ==> |Select(letters, nodes, config)| <= 1)
      && (config.mode == "fixed" ==> forall n :: n in Select(letters, nodes, config) ==> IsFixed(n, config))
  {
    var config := Validate(letters, mode, country, node).config;
    if config.mode == "fixed" {
      FixedExact(nodes, config.node);
      FixedCandidatesAreFixed(letters, nodes, config);
    }
  }

  /**
     A node is exempt from the blacklist check exactly if it bears the given name, whatever the mode: a
     name given with another mode is kept. A blank one exempts nothing, and is never accepted as fixed.
   */
  lemma NodeNameOutlivesFixedMode(letters: Letters, mode: string, country: string, node: string, n: Node)
    requires Validate(letters, mode, country, node).Accepted?
    ensures IsFixed(n, Validate(letters, mode, country, node).config) <==>
      !Blank(node) && (n.host == TrimSpace(node) || n.ip == TrimSpace(node))
    ensures Validate(letters, mode, country, node).config.mode == "fixed" ==> !Blank(node)
  {
    TrimSpaceShape(node);
  }

  /** Candidates always come from the pool. */
  lemma SelectFromPool(letters: Letters, nodes: seq<Node>, config: Config)
    ensures forall n :: n in Select(letters, nodes, config) ==> n in nodes
  {
    var at := CountriesExact(letters, nodes, Wanted(letters, config.country));
    FixedExact(nodes, config.node);
  }

  lemma {:induction false} NoCountries(letters: Letters, nodes: seq<Node>)
    ensures InCountries(letters, nodes, {}) == []
  {
    if nodes != [] { NoCountries(letters, nodes[1..]); }
  }

  /**
     An accepted country route can select something exactly if its list names a code: a list of
     commas and blanks is accepted although no pool of nodes can ever satisfy it.
   */
  lemma CountryRouteCanSelect(letters: Letters, config: Config, code: string)
    requires config.mode == "country" && letters.upper(code) == code
    ensures code in Wanted(letters, config.country) <==> Select(letters, [Node("h", "1.2.3.4", code)], config) != []
    ensures Wanted(letters, config.country) == {} ==> forall nodes :: Select(letters, nodes, config) == []
  {
    if Wanted(letters, config.country) == {} {
      forall nodes ensures Select(letters, nodes, config) == [] { NoCountries(letters, nodes); }
    }
    var one := [Node("h", "1.2.3.4", code)];
    assert one[1..] == [] && InCountries(letters, [], Wanted(letters, config.country)) == [];
  }

  /** The list "," shows it. */
  lemma CommaIsAcceptedAndSelectsNothing(letters: Letters)
    requires letters.lower("country") == "country" && letters.upper(",") == "," && letters.upper("") == ""
    ensures Validate(letters, "country", ",", "") == Accepted(Config("country", ",", ""))
    ensures Wanted(letters, ",") == {}
  {
    assert Trimmed("country") && Trimmed(",");
    TrimSpaceShape("country");
    TrimSpaceShape(",");
    CommaHasNoCode(letters);
  }

  lemma CommaHasNoCode(letters: Letters)
    requires letters.upper("") == ""
    ensures Wanted(letters, ",") == {}
  {
    assert Split(",", ',') == ["", ""];
    forall part | part in Split(",", ',') ensures letters.upper(TrimSpace(part)) == "" {
      assert part == "";
    }
  }

  // ---------- selectCandidates as it runs ----------

  method WantedCodes(letters: Letters, country: string) returns (wanted: set<string>)
    ensures wanted == Wanted(letters, country)
  {
    var parts := Split(country, ',');
    wanted := {};
    for i := 0 to |parts|
      invariant wanted == set part | part in parts[..i] && letters.upper(TrimSpace(part)) != "" :: letters.upper(TrimSpace(part))
    {
      var code := letters.upper(TrimSpace(parts[i]));
      assert forall p :: p in parts[..i + 1] <==> p in parts[..i] || p == parts[i];
      if code != "" { wanted := wanted + {code}; }
    }
    assert parts[..|parts|] == parts;
  }

  lemma CountriesAppend(letters: Letters, a: seq<Node>, n: Node, wanted: set<string>)
    ensures InCountries(letters, a + [n], wanted) ==
            InCountries(letters, a, wanted) + if HasCountry(letters, n, wanted) then [n] else []
  {
    if a == [] {
      assert [n][1..] == [] && [] + [n] == [n];
    } else {
      CountriesAppend(letters, a[1..], n, wanted);
      assert (a + [n])[1..] == a[1..] + [n];
    }
  }

  method SelectCandidates(letters: Letters, nodes: seq<Node>, config: Config) returns (out: seq<Node>)
    ensures out == Select(letters, nodes, config)
  {
    if config.mode == "country" {
      var wanted := WantedCodes(letters, config.country);
      out := [];
      for i := 0 to |nodes|
        invariant out == InCountries(letters, nodes[..i], wanted)
      {
        CountriesAppend(letters, nodes[..i], nodes[i], wanted);
        assert nodes[..i + 1] == nodes[..i] + [nodes[i]];
        if letters.upper(nodes[i].country) in wanted { out := out + [nodes[i]]; }
      }
      assert nodes[..|nodes|] == nodes;
    } else if config.mode == "fixed" {
      for i := 0 to |nodes|
        invariant FirstNamed(nodes, config.node) == FirstNamed(nodes[i..], config.node)
      {
        if Named(nodes[i], config.node) { return [nodes[i]]; }
      }
      out := [];
    } else {
      out := nodes;
    }
  }
}
