/**
  The hidden "label" trigger of the Linear integration for Zapier
  (src/triggers/label.ts). It resolves the team whose labels are wanted,
  reads the host's pagination cursor on continuation pages, asks the
  GraphQL API for one page of labels, stores the id of the last label as
  the next cursor and turns every label into a dropdown option.

  The GraphQL round trip is not modelled: the page of label nodes the API
  returns is an input of GetLabelList, and so is the team id the sibling
  helper getIssueTeamId would answer.
*/
module Label {
  import opened Wrappers

  /** A label node as the API returns it: its id, its name and, for a
      nested label, its parent label. */
  datatype LabelNode = LabelNode(id: string, name: string, parent: Option<LabelNode>)

  /** One entry of the dropdown: the value stored by the zap and the text shown. */
  datatype LabelOption = LabelOption(id: string, name: string)

  /** The form fields the trigger looks at. `teamIdAlias` is the field
      spelled `team_id`, accepted as a second name for `teamId`. */
  datatype InputData = InputData(
    teamId: Option<string>,
    teamIdAlias: Option<string>,
    issueIdToUpdate: Option<string>)

  /** The GraphQL variables of the one request the trigger sends. */
  datatype Variables = Variables(teamId: string, after: Option<string>)

  /** How one invocation ends: halted with a user-facing message before any
      request, or with the variables it sent and the options it returns. */
  datatype Outcome =
    | Halted(message: string)
    | Listed(request: Variables, options: seq<LabelOption>)

  const HaltMessage: string := "Please select the team first before selecting the labels"

  /** The separator between a parent label's name and its child's name. */
  const Arrow: string := " → "

  /** JavaScript truthiness of a string that may be undefined. */
  predicate Truthy(s: Option<string>)
  {
    s.Some? && s.value != ""
  }

  /** `teamId || team_id`: the first alias when it is truthy, else the second
      one as it is (which may itself be falsy). */
  function ExplicitTeamId(input: InputData): (r: Option<string>)
    ensures Truthy(r) <==> Truthy(input.teamId) || Truthy(input.teamIdAlias)
    ensures Truthy(input.teamId) ==> r == input.teamId
    ensures !Truthy(input.teamId) ==> r == input.teamIdAlias
  {
    if Truthy(input.teamId) then input.teamId else input.teamIdAlias
  }

  /** Whether the issue's current team is looked up: only when no alias gives
      a truthy team id and an issue to update is named. */
  predicate ConsultsIssueTeam(input: InputData)
  {
    !Truthy(ExplicitTeamId(input)) && Truthy(input.issueIdToUpdate)
  }

  /** The team the labels are listed for, given the answer `issueTeam` of the
      issue-team lookup; None when the trigger must halt. */
  function ResolveTeam(input: InputData, issueTeam: Option<string>): (r: Option<string>)
    ensures r.Some? ==> r.value != ""
    ensures r.Some? <==>
              Truthy(input.teamId) || Truthy(input.teamIdAlias)
              || (Truthy(input.issueIdToUpdate) && Truthy(issueTeam))
    ensures Truthy(input.teamId) ==> r == input.teamId
    ensures !Truthy(input.teamId) && Truthy(input.teamIdAlias) ==> r == input.teamIdAlias
    ensures ConsultsIssueTeam(input) && Truthy(issueTeam) ==> r == issueTeam
    ensures !ConsultsIssueTeam(input) && r.Some? ==> r == ExplicitTeamId(input)
  {
    var explicit := ExplicitTeamId(input);
    var team := if ConsultsIssueTeam(input) then issueTeam else explicit;
    if Truthy(team) then team else None
  }

  /** The dropdown option for one label node. */
  function Project(node: LabelNode): (o: LabelOption)
    ensures o.id == node.id
    ensures |o.name| >= |node.name| && o.name[|o.name| - |node.name|..] == node.name
    ensures node.parent.None? ==> o.name == node.name
    ensures node.parent.Some? ==>
              var p := node.parent.value.name;
              && |o.name| == |p| + |Arrow| + |node.name|
              && o.name[..|p|] == p
              && o.name[|p|..|p| + |Arrow|] == Arrow
  {
    var name := match node.parent
      case Some(p) => p.name + Arrow + node.name
      case None => node.name;
    LabelOption(node.id, name)
  }

  /** `labels.map(...)`: the options for a page, in the page's order. */
  function Options(nodes: seq<LabelNode>): (r: seq<LabelOption>)
    ensures |r| == |nodes|
    ensures forall i :: 0 <= i < |nodes| ==> r[i] == Project(nodes[i])
  {
    if nodes == [] then [] else [Project(nodes[0])] + Options(nodes[1..])
  }

  /** `labels?.[labels.length - 1]?.id`: the id of the last node of the page,
      undefined for an empty page. */
  function LastId(nodes: seq<LabelNode>): (c: Option<string>)
    ensures c.Some? <==> |nodes| > 0
    ensures c.Some? ==> c.value == nodes[|nodes| - 1].id
  {
    if |nodes| == 0 then None else Some(nodes[|nodes| - 1].id)
  }

  /** The host concatenates successive pages; mapping them page by page
      gives the same options as mapping the whole list at once. */
  lemma OptionsAppend(a: seq<LabelNode>, b: seq<LabelNode>)
    ensures Options(a + b) == Options(a) + Options(b)
  {
  }

  /** The cursor the trigger stores is the id of the last option it shows. */
  lemma LastIdIsLastOption(nodes: seq<LabelNode>)
    ensures var opts := Options(nodes);
            LastId(nodes) == if opts == [] then None else Some(opts[|opts| - 1].id)
  {
  }

  /** An access to the host's cursor store. */
  datatype Access = Read | Write(cursor: string)

  /** The host's cursor store for one pagination session (`z.cursor`).
      `accesses` records every get and set, in order, so that contracts can
      say when the store is read or written and not only what it holds. */
  class CursorStore {
    var value: Option<string>
    ghost var accesses: seq<Access>

    constructor (initial: Option<string>)
      ensures value == initial && accesses == []
    {
      value := initial;
      accesses := [];
    }

    /** `z.cursor.get()`. */
    method Get() returns (c: Option<string>)
      modifies this`accesses
      ensures c == value
      ensures accesses == old(accesses) + [Read]
    {
      c := value;
      accesses := accesses + [Read];
    }

    /** `z.cursor.set(cursor)`. */
    method Set(cursor: string)
      modifies this
      ensures value == Some(cursor)
      ensures accesses == old(accesses) + [Write(cursor)]
    {
      value := Some(cursor);
      accesses := accesses + [Write(cursor)];
    }
  }

  /** `getLabelList`: one invocation of the trigger. `page` is `meta.page`
      (truthy when not 0), `issueTeam` is what getIssueTeamId answers for the
      issue to update, and `nodes` is the page the API returns. `asked` is the
      issue id handed to getIssueTeamId, None when it is not consulted. */
  method GetLabelList(z: CursorStore, input: InputData, page: int,
                      issueTeam: Option<string>, nodes: seq<LabelNode>)
    returns (outcome: Outcome, asked: Option<string>)
    modifies z
    ensures asked == if ConsultsIssueTeam(input) then input.issueIdToUpdate else None
    ensures outcome.Halted? <==> ResolveTeam(input, issueTeam).None?
    ensures outcome.Halted? ==>
              && outcome.message == HaltMessage
              && z.value == old(z.value)
              && z.accesses == old(z.accesses)
    ensures outcome.Listed? ==>
              var next := LastId(nodes);
              && outcome.request.teamId == ResolveTeam(input, issueTeam).value
              && outcome.request.after == (if page != 0 then old(z.value) else None)
              && outcome.options == Options(nodes)
              && z.value == (if Truthy(next) then next else old(z.value))
              && z.accesses == old(z.accesses)
                               + (if page != 0 then [Read] else [])
                               + (if Truthy(next) then [Write(next.value)] else [])
  {
    asked := None;
    var teamId := ExplicitTeamId(input);
    if !Truthy(teamId) && Truthy(input.issueIdToUpdate) {
      asked := input.issueIdToUpdate;
      teamId := issueTeam;
    }
    if !Truthy(teamId) {
      outcome := Halted(HaltMessage);
      return;
    }

    var cursor := None;
    if page != 0 {
      cursor := z.Get();
    }
    var request := Variables(teamId.value, cursor);

    var nextCursor := LastId(nodes);
    if Truthy(nextCursor) {
      z.Set(nextCursor.value);
    }

    outcome := Listed(request, Options(nodes));
  }

  /** Two calls of one pagination session, a first page and then a
      continuation page: the second request continues after the cursor the
      first call left in the store, which is the id of the first page's last
      option whenever that id is truthy. */
  method FetchTwoPages(z: CursorStore, input: InputData, issueTeam: Option<string>,
                       first: seq<LabelNode>, second: seq<LabelNode>)
    returns (one: Outcome, two: Outcome)
    modifies z
    ensures one.Listed? <==> ResolveTeam(input, issueTeam).Some?
    ensures one.Listed? <==> two.Listed?
    ensures one.Listed? ==> one.request.after == None
    ensures two.Listed? ==>
              two.request.after == (if Truthy(LastId(first)) then LastId(first) else old(z.value))
    ensures two.Listed? && one.options != [] && one.options[|one.options| - 1].id != "" ==>
              two.request.after == Some(one.options[|one.options| - 1].id)
  {
    var asked;
    one, asked := GetLabelList(z, input, 0, issueTeam, first);
    LastIdIsLastOption(first);
    two, asked := GetLabelList(z, input, 1, issueTeam, second);
  }

  /** A team id given directly, with one plain and one nested label. */
  method ExampleExplicitTeam()
  {
    var z := new CursorStore(None);
    var input := InputData(Some("team-1"), None, None);
    var nodes := [
      LabelNode("L1", "Bug", None),
      LabelNode("L2", "Sub", Some(LabelNode("P1", "Feature", None)))];
    var outcome, asked := GetLabelList(z, input, 0, None, nodes);
    assert asked == None;
    assert Options(nodes) == [Project(nodes[0]), Project(nodes[1])];
    assert Project(nodes[1]).name == "Feature" + Arrow + "Sub" == "Feature → Sub";
    assert outcome == Listed(Variables("team-1", None),
                             [LabelOption("L1", "Bug"), LabelOption("L2", "Feature → Sub")]);
    assert z.value == Some("L2");
  }

  /** Nothing names a team: the trigger halts without touching the cursor
      store and without looking up any issue. */
  method ExampleNoTeam(stored: Option<string>, issueTeam: Option<string>, nodes: seq<LabelNode>)
  {
    var z := new CursorStore(stored);
    var outcome, asked := GetLabelList(z, InputData(None, None, None), 1, issueTeam, nodes);
    assert outcome == Halted(HaltMessage);
    assert asked == None;
    assert z.value == stored && z.accesses == [];
  }

  /** Only the issue to update is given: the request goes to the team the
      lookup answers for that issue. */
  method ExampleIssueTeam(nodes: seq<LabelNode>)
  {
    var z := new CursorStore(None);
    var outcome, asked := GetLabelList(z, InputData(None, None, Some("I1")), 0, Some("team-9"), nodes);
    assert asked == Some("I1");
    assert outcome.Listed? && outcome.request.teamId == "team-9";
  }
}
