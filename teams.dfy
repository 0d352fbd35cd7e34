/**
 * The destination registry (`TEAMS`) and the classifier that routes a task to a
 * team from its "Requestor" drop-down custom field.
 */
module Teams {
  import opened Wrappers
  import opened Text

  /** One configured destination. `enabled` is configuration the webhook never reads. */
  datatype Team = Team(chatId: string, name: string, emoji: string, enabled: bool)

  /** `TEAMS` as its (key, configuration) pairs in insertion order. */
  type Registry = seq<(string, Team)>

  /** The registry the webhook ships with: the single "facility" team. */
  const DefaultTeams: Registry :=
    [("facility", Team("-1002914241474", "Facility & Partnership", "🏢", true))]

  /** No key is configured twice, as in a Python dict. */
  predicate UniqueKeys(teams: Registry) {
    forall i, j :: 0 <= i < j < |teams| ==> teams[i].0 != teams[j].0
  }

  /** `TEAMS.get(key)`. */
  function Lookup(teams: Registry, key: string): (r: Option<Team>)
    ensures r.None? <==> forall i :: 0 <= i < |teams| ==> teams[i].0 != key
    ensures r.Some? ==> (key, r.value) in teams
  {
    if teams == [] then None
    else if teams[0].0 == key then Some(teams[0].1)
    else Lookup(teams[1..], key)
  }

  /** In a registry without repeated keys, every configured pair is what a lookup of its key finds. */
  lemma {:induction false} LookupFindsPair(teams: Registry, key: string, team: Team)
    requires UniqueKeys(teams) && (key, team) in teams
    ensures Lookup(teams, key) == Some(team)
  {
    if teams[0] != (key, team) {
      assert teams[0].0 != key by {
        var i :| 0 <= i < |teams| && teams[i] == (key, team);
        assert i != 0;
      }
      assert UniqueKeys(teams[1..]);
      LookupFindsPair(teams[1..], key, team);
    }
  }

  /** One entry of a drop-down field's `type_config.options`. */
  datatype DropOption = DropOption(orderIndex: Option<int>, name: string)

  /** A task custom field: its name, its value (None for null) and its options. */
  datatype Field = Field(name: string, value: Option<int>, options: seq<DropOption>)

  /** The part of a ClickUp task the classifier reads. */
  datatype Task = Task(customFields: seq<Field>)

  /** The field name marks a classification field: it contains "requestor", ignoring case. */
  predicate IsRequestorField(f: Field) {
    Contains(Lower(f.name), "requestor")
  }

  /** Two-way substring containment between a team key and a lower-cased option name. */
  predicate KeyMatches(key: string, optName: string) {
    Contains(optName, key) || Contains(key, optName)
  }

  /** The registry entries whose key matches `optName`, in registry order. */
  function TeamCandidates(teams: Registry, optName: string): seq<(string, Team)> {
    if teams == [] then []
    else (if KeyMatches(teams[0].0, optName) then [teams[0]] else []) + TeamCandidates(teams[1..], optName)
  }

  /** The matches contributed by the options whose order index equals the field's value `v`. */
  function OptionCandidates(options: seq<DropOption>, v: int, teams: Registry): seq<(string, Team)> {
    if options == [] then []
    else
      (if options[0].orderIndex == Some(v) then TeamCandidates(teams, Lower(options[0].name)) else [])
      + OptionCandidates(options[1..], v, teams)
  }

  /** The matches contributed by one field: only a requestor field with a value and options has any. */
  function FieldCandidates(f: Field, teams: Registry): seq<(string, Team)> {
    if IsRequestorField(f) && f.value.Some? && |f.options| > 0
    then OptionCandidates(f.options, f.value.value, teams)
    else []
  }

  /** Every match in the order the nested search meets them: field, then option, then team. */
  function Candidates(fields: seq<Field>, teams: Registry): seq<(string, Team)> {
    if fields == [] then []
    else FieldCandidates(fields[0], teams) + Candidates(fields[1..], teams)
  }

  /** The team of a task: the first match, or none (`(None, None)` in the source). */
  function Classify(teams: Registry, task: Option<Task>): (r: Option<(string, Team)>)
    ensures r.Some? ==> task.Some? && exists i, j :: MatchAt(task.value.customFields, teams, r.value, i, j)
  {
    if task.None? then None
    else
      var c := Candidates(task.value.customFields, teams);
      if c == [] then None
      else
        CandidatesMembers(task.value.customFields, teams, c[0]);
        Some(c[0])
  }

  /** A match is a registry entry whose key matches the lower-cased name of a selected option. */
  predicate MatchAt(fields: seq<Field>, teams: Registry, x: (string, Team), i: int, j: int) {
    && 0 <= i < |fields| && 0 <= j < |fields[i].options|
    && IsRequestorField(fields[i]) && fields[i].value.Some?
    && fields[i].options[j].orderIndex == fields[i].value
    && x in teams && KeyMatches(x.0, Lower(fields[i].options[j].name))
  }

  lemma {:induction false} TeamCandidatesMembers(teams: Registry, optName: string, x: (string, Team))
    ensures x in TeamCandidates(teams, optName) <==> x in teams && KeyMatches(x.0, optName)
  {
    if teams != [] {
      TeamCandidatesMembers(teams[1..], optName, x);
      assert teams == [teams[0]] + teams[1..];
    }
  }

  lemma {:induction false} OptionCandidatesMembers(options: seq<DropOption>, v: int, teams: Registry, x: (string, Team))
    ensures x in OptionCandidates(options, v, teams) <==>
      exists j :: 0 <= j < |options| && options[j].orderIndex == Some(v)
                  && x in teams && KeyMatches(x.0, Lower(options[j].name))
  {
    if options != [] {
      OptionCandidatesMembers(options[1..], v, teams, x);
      TeamCandidatesMembers(teams, Lower(options[0].name), x);
      if x in OptionCandidates(options[1..], v, teams) {
        var j :| 0 <= j < |options[1..]| && options[1..][j].orderIndex == Some(v)
                 && x in teams && KeyMatches(x.0, Lower(options[1..][j].name));
        assert options[j + 1] == options[1..][j];
      }
      if exists j :: 0 <= j < |options| && options[j].orderIndex == Some(v)
                     && x in teams && KeyMatches(x.0, Lower(options[j].name)) {
        var j :| 0 <= j < |options| && options[j].orderIndex == Some(v)
                 && x in teams && KeyMatches(x.0, Lower(options[j].name));
        if j > 0 {
          assert options[1..][j - 1] == options[j];
        }
      }
    }
  }

  /**
   * Soundness and completeness of the search order: an entry is among the
   * candidates exactly when some requestor field with a value selects an option
   * whose lower-cased name and the entry's key contain one another.
   */
  lemma {:induction false} CandidatesMembers(fields: seq<Field>, teams: Registry, x: (string, Team))
    ensures x in Candidates(fields, teams) <==> exists i, j :: MatchAt(fields, teams, x, i, j)
  {
    if fields != [] {
      CandidatesMembers(fields[1..], teams, x);
      var f := fields[0];
      if f.value.Some? {
        OptionCandidatesMembers(f.options, f.value.value, teams, x);
      }
      if x in Candidates(fields[1..], teams) {
        var i, j :| MatchAt(fields[1..], teams, x, i, j);
        assert MatchAt(fields, teams, x, i + 1, j);
      }
      if x in FieldCandidates(f, teams) {
        var j :| 0 <= j < |f.options| && f.options[j].orderIndex == Some(f.value.value)
                 && x in teams && KeyMatches(x.0, Lower(f.options[j].name));
        assert MatchAt(fields, teams, x, 0, j);
      }
      if exists i, j :: MatchAt(fields, teams, x, i, j) {
        var i, j :| MatchAt(fields, teams, x, i, j);
        if i == 0 {
          assert x in FieldCandidates(f, teams);
        } else {
          assert MatchAt(fields[1..], teams, x, i - 1, j);
        }
      }
    } else {
      assert forall i, j :: !MatchAt(fields, teams, x, i, j);
    }
  }

  /**
   * Python's `get_team_from_task`: the nested search over fields, options and
   * registry entries, returning at the first match.
   */
  method TeamFromTask(teams: Registry, task: Option<Task>) returns (r: Option<(string, Team)>)
    ensures r == Classify(teams, task)
  {
    if task.None? {
      return None;
    }
    var fields := task.value.customFields;
    for i := 0 to |fields|
      invariant Candidates(fields, teams) == Candidates(fields[i..], teams)
    {
      assert fields[i..][1..] == fields[i + 1..];
      var field := fields[i];
      if Contains(Lower(field.name), "requestor") {
        var value := field.value;
        var options := field.options;
        if value.Some? && |options| > 0 {
          for j := 0 to |options|
            invariant OptionCandidates(options, value.value, teams) == OptionCandidates(options[j..], value.value, teams)
          {
            assert options[j..][1..] == options[j + 1..];
            var opt := options[j];
            if opt.orderIndex == value {
              var teamName := Lower(opt.name);
              for k := 0 to |teams|
                invariant TeamCandidates(teams, teamName) == TeamCandidates(teams[k..], teamName)
              {
                assert teams[k..][1..] == teams[k + 1..];
                var (key, conf) := teams[k];
                if Contains(teamName, key) || Contains(key, teamName) {
                  assert Candidates(fields, teams)[0] == (key, conf);
                  return Some((key, conf));
                }
              }
              assert teams[|teams|..] == [];
            }
          }
          assert options[|options|..] == [];
        }
      }
    }
    assert fields[|fields|..] == [];
    return None;
  }

  /** Every registry key contains the empty string, so an empty option name matches every entry, in order. */
  lemma {:induction false} EmptyLabelMatchesAll(teams: Registry)
    ensures TeamCandidates(teams, "") == teams
  {
    if teams != [] {
      assert OccursAt(teams[0].0, "", 0);
      EmptyLabelMatchesAll(teams[1..]);
    }
  }

  /**
   * The classifier's answer is a configured pair `(k, TEAMS[k])` reached through
   * a selected option, or there is no such match at all.
   */
  lemma ClassifySound(teams: Registry, task: Option<Task>)
    requires UniqueKeys(teams)
    ensures Classify(teams, task).Some? ==>
      var (k, conf) := Classify(teams, task).value;
      Lookup(teams, k) == Some(conf) &&
      exists i, j :: MatchAt(task.value.customFields, teams, (k, conf), i, j)
    ensures Classify(teams, task).None? && task.Some? ==>
      forall x, i, j :: !MatchAt(task.value.customFields, teams, x, i, j)
  {
    if task.Some? {
      var fields := task.value.customFields;
      var c := Candidates(fields, teams);
      if c != [] {
        CandidatesMembers(fields, teams, c[0]);
        LookupFindsPair(teams, c[0].0, c[0].1);
      } else {
        forall x, i, j ensures !MatchAt(fields, teams, x, i, j) {
          CandidatesMembers(fields, teams, x);
        }
      }
    }
  }

  /** A selected option with an empty name routes to the first configured team. */
  lemma EmptyLabelPicksFirstTeam(teams: Registry, value: int, rest: seq<Field>)
    requires teams != []
    ensures Classify(teams, Some(Task([Field("Requestor", Some(value), [DropOption(Some(value), "")])] + rest)))
            == Some(teams[0])
  {
    var f := Field("Requestor", Some(value), [DropOption(Some(value), "")]);
    var fields := [f] + rest;
    assert Lower("Requestor") == "requestor";
    assert OccursAt(Lower(f.name), "requestor", 0);
    assert Lower("") == "";
    EmptyLabelMatchesAll(teams);
    assert fields[0] == f && fields[1..] == rest;
  }

  /** Matching ignores case and works both ways: "Facility Team" selects the "facility" team. */
  lemma FacilityLabelMatches(value: int)
    ensures Classify(DefaultTeams, Some(Task([Field("Requestor", Some(value), [DropOption(Some(value), "Facility Team")])])))
            == Some(DefaultTeams[0])
    ensures KeyMatches("facilityteam", "facility")
  {
    assert Lower("Requestor") == "requestor";
    assert OccursAt(Lower("Requestor"), "requestor", 0);
    assert Lower("Facility Team") == "facility team";
    assert OccursAt(Lower("Facility Team"), "facility", 0);
    assert OccursAt("facilityteam", "facility", 0);
  }
}
