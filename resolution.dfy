/**
 Name-to-ID resolution. The remote API cannot fetch a component by name, so
 the resource's Read and Update and the data source's Read each list the
 project's components and scan them for the first entry whose name equals
 the requested one exactly. The scan is written once here; "not found" is
 then decided by the ID of what the scan produced being empty.
 Also here: the diagnostics of the resolve-then-enrich steps, which the
 resource and the data source word identically.
 */
module Resolution {
  import opened Framework
  import opened Jira

  /**
   The component the scan settles on: the first one, in list order, whose
   name equals `name`, or the zero component when none does.
   */
  function FirstNamed(components: seq<Component>, name: string): (r: Component)
    ensures r == ZeroComponent || r in components
    ensures r == ZeroComponent || r.name == name
  {
    if components == [] then ZeroComponent
    else if components[0].name == name then components[0]
    else FirstNamed(components[1..], name)
  }

  /** Whether a scan result designates a component: its ID is not empty. */
  predicate Resolved(c: Component) {
    c.id != ""
  }

  /**
   The scanning loop: walk the components in order, keep the first whose
   name matches and stop there.
   */
  method FindComponentByName(components: seq<Component>, name: string) returns (found: Component)
    ensures found == FirstNamed(components, name)
  {
    found := ZeroComponent;
    var i := 0;
    while i < |components|
      invariant 0 <= i <= |components|
      invariant FirstNamed(components, name) == FirstNamed(components[i..], name)
    {
      if components[i].name == name {
        found := components[i];
        break;
      }
      assert components[i..][1..] == components[i + 1..];
      i := i + 1;
    }
  }

  /** The scan picks the entry at the first index whose name matches. */
  lemma {:induction false} FirstNamedIsFirstMatch(components: seq<Component>, name: string, i: nat)
    requires i < |components| && components[i].name == name
    requires forall j :: 0 <= j < i ==> components[j].name != name
    ensures FirstNamed(components, name) == components[i]
  {
    if i > 0 {
      FirstNamedIsFirstMatch(components[1..], name, i - 1);
    }
  }

  /**
   When no entry has the name, the scan yields the zero component (a
   consequence of FirstNamed's contract: any other result is a listed entry
   carrying the name).
   */
  lemma FirstNamedWithoutMatch(components: seq<Component>, name: string)
    requires forall j :: 0 <= j < |components| ==> components[j].name != name
    ensures FirstNamed(components, name) == ZeroComponent
  {
  }

  /**
   Entries after a match never influence the result: once some component of
   `components` carries the name, appending more (duplicates included)
   leaves the scan's result unchanged.
   */
  lemma {:induction false} LaterEntriesIgnored(components: seq<Component>, later: seq<Component>, name: string)
    requires exists j :: 0 <= j < |components| && components[j].name == name
    ensures FirstNamed(components + later, name) == FirstNamed(components, name)
  {
    if components[0].name != name {
      assert (components + later)[1..] == components[1..] + later;
      var j :| 0 <= j < |components| && components[j].name == name;
      assert components[1..][j - 1].name == name;
      LaterEntriesIgnored(components[1..], later, name);
    }
  }

  /**
   The scan yields an unresolved result exactly when no entry has the name
   or the first entry that has it carries an empty ID.
   */
  lemma NotResolvedIff(components: seq<Component>, name: string)
    ensures !Resolved(FirstNamed(components, name)) <==>
      || (forall j :: 0 <= j < |components| ==> components[j].name != name)
      || (exists i :: 0 <= i < |components| && components[i].name == name && components[i].id == ""
            && forall j :: 0 <= j < i ==> components[j].name != name)
  {
    if forall j :: 0 <= j < |components| ==> components[j].name != name {
      FirstNamedWithoutMatch(components, name);
    } else {
      var i := FirstMatchIndex(components, name);
      FirstNamedIsFirstMatch(components, name, i);
    }
  }

  /** The least index whose component has the name, when there is one. */
  lemma FirstMatchIndex(components: seq<Component>, name: string) returns (i: nat)
    requires exists j :: 0 <= j < |components| && components[j].name == name
    ensures i < |components| && components[i].name == name
    ensures forall j :: 0 <= j < i ==> components[j].name != name
  {
    var k :| 0 <= k < |components| && components[k].name == name;
    i := 0;
    while components[i].name != name
      invariant i <= k
      invariant forall j :: 0 <= j < i ==> components[j].name != name
      decreases k - i
    {
      i := i + 1;
    }
  }

  /** Matching is exact: a component named "Foo" is not found by a lookup for "foo". */
  lemma MatchIsCaseSensitive()
    ensures FirstNamed([Component("10000", "Foo", "", "", "", "")], "foo") == ZeroComponent
    ensures !Resolved(FirstNamed([Component("10000", "Foo", "", "", "", "")], "foo"))
  {
  }

  /** Two components differing only by name: a lookup of the second's name finds the second. */
  lemma SecondOfTwoFound(first: Component, second: Component)
    requires first.name == "Comp1" && second.name == "Comp2"
    ensures FirstNamed([first, second], "Comp2") == second
  {
    FirstNamedIsFirstMatch([first, second], "Comp2", 1);
  }

  /** `Failed to read <key> project`: the project listing failed with `e`. */
  function ProjectReadFailed(key: string, e: string): Diagnostic {
    Error("Failed to read " + key + " project",
      "An unexpected error occurred while reading the " + key + " project... " + "Jira Cloud client error: " + e)
  }

  /** `Failed to find component`: the scan produced no component with a non-empty ID. */
  function ComponentNotFound(name: TfString): Diagnostic {
    Error("Failed to find component", "Could not find a component with the name: " + name.String())
  }

  /** `Failed to read component`: fetching the resolved component by ID failed with `e`. */
  function ComponentReadFailed(name: string, e: string): Diagnostic {
    Error("Failed to read component",
      "An unexpected error occurred while reading the \"" + name + "\" component" + "Jira Cloud client error: " + e)
  }
}
