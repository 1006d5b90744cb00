/**
 * The filtering and grouping parameters a cloud offers (parameter.go) and the
 * lookups over a parameter list.
 */
module Parameters {
  import opened Wrappers
  import opened Text

  /** Separates a parameter id from its extra data, as in "TAG|team". */
  const DataSeparator: char := '|'

  datatype Parameter = Parameter(
    id: string,
    name: string,
    menuTitle: string,
    defaultPriority: int,
    isGroup: bool,
    isGroupFilter: bool,
    isFilter: bool,
    hasData: bool,
    dataRequired: bool)

  /** Go's zero `Parameter{}`. */
  const ZeroParameter := Parameter("", "", "", 0, false, false, false, false, false)

  /** `id` names `p`: exactly, or, when `p` carries data, through the part of
    * `id` before the first separator. */
  predicate MatchesId(p: Parameter, id: string) {
    p.id == id || (p.hasData && DataSeparator in id && p.id == Cut(id, DataSeparator).before)
  }

  /** Parameters.FindById: the first parameter that `id` names, or None (Go's
    * `Parameter{}, false`) when no parameter matches. */
  function FindById(ps: seq<Parameter>, id: string): (r: Option<Parameter>)
    ensures r.None? <==> forall i :: 0 <= i < |ps| ==> !MatchesId(ps[i], id)
    ensures r.Some? ==> r.value in ps && MatchesId(r.value, id)
  {
    if ps == [] then None
    else if ps[0].id == id then Some(ps[0])
    else if ps[0].hasData && Cut(id, DataSeparator).found && ps[0].id == Cut(id, DataSeparator).before then
      Some(ps[0])
    else
      assert forall i :: 1 <= i < |ps| ==> ps[i] == ps[1..][i - 1];
      FindById(ps[1..], id)
  }

  /** The parameter found is the first one the id names. */
  lemma {:induction false} FindByIdFirst(ps: seq<Parameter>, id: string)
    ensures var r := FindById(ps, id);
            r.Some? ==> exists i :: 0 <= i < |ps| && ps[i] == r.value && forall j :: 0 <= j < i ==> !MatchesId(ps[j], id)
  {
    if ps != [] && !MatchesId(ps[0], id) {
      FindByIdFirst(ps[1..], id);
      var r := FindById(ps[1..], id);
      if r.Some? {
        var i :| 0 <= i < |ps[1..]| && ps[1..][i] == r.value && forall j :: 0 <= j < i ==> !MatchesId(ps[1..][j], id);
        assert ps[i + 1] == r.value;
        forall j | 0 <= j < i + 1
          ensures !MatchesId(ps[j], id)
        {
          if j > 0 {
            assert ps[j] == ps[1..][j - 1];
          }
        }
      }
    }
  }

  /** An id without a separator finds only a parameter with exactly that id. */
  lemma FindByIdPlain(ps: seq<Parameter>, id: string)
    requires DataSeparator !in id
    ensures FindById(ps, id).Some? <==> exists i :: 0 <= i < |ps| && ps[i].id == id
    ensures FindById(ps, id).Some? ==> FindById(ps, id).value.id == id
  {
    var r := FindById(ps, id);
    if exists i :: 0 <= i < |ps| && ps[i].id == id {
      var i :| 0 <= i < |ps| && ps[i].id == id;
      assert MatchesId(ps[i], id);
    }
  }

  /** An id with data finds the data-carrying parameter named before the separator. */
  lemma FindByIdWithData(ps: seq<Parameter>, name: string, data: string, k: nat)
    requires DataSeparator !in name
    requires k < |ps| && ps[k].id == name && ps[k].hasData
    requires forall j :: 0 <= j < |ps| ==> ps[j].id != name + [DataSeparator] + data
    requires forall j :: 0 <= j < k ==> ps[j].id != name
    ensures FindById(ps, name + [DataSeparator] + data) == Some(ps[k])
  {
    var id := name + [DataSeparator] + data;
    assert id[|name|] == DataSeparator;
    assert Cut(id, DataSeparator).before == name by {
      var c := Cut(id, DataSeparator);
      assert c.found;
      assert id == c.before + [DataSeparator] + c.after;
      assert c.before == id[..|c.before|];
      assert name == id[..|name|];
    }
    assert MatchesId(ps[k], id);
    FindByIdFirst(ps, id);
    var r := FindById(ps, id);
    var i :| 0 <= i < |ps| && ps[i] == r.value && forall j :: 0 <= j < i ==> !MatchesId(ps[j], id);
    assert MatchesId(ps[i], id);
    assert i == k;
  }

  /** Parameters.FindByGroupDefaultPriority: the first group with that priority. */
  function FindByGroupDefaultPriority(ps: seq<Parameter>, priority: int): (r: Option<Parameter>)
    ensures r.None? <==> forall i :: 0 <= i < |ps| ==> !(ps[i].isGroup && ps[i].defaultPriority == priority)
    ensures r.Some? ==> r.value in ps && r.value.isGroup && r.value.defaultPriority == priority
    ensures r.Some? ==> exists i :: 0 <= i < |ps| && ps[i] == r.value &&
                          forall j :: 0 <= j < i ==> !(ps[j].isGroup && ps[j].defaultPriority == priority)
  {
    if ps == [] then None
    else if ps[0].isGroup && ps[0].defaultPriority == priority then Some(ps[0])
    else
      var r := FindByGroupDefaultPriority(ps[1..], priority);
      assert r.Some? ==> exists i :: 0 <= i < |ps| && ps[i] == r.value &&
                           forall j :: 0 <= j < i ==> !(ps[j].isGroup && ps[j].defaultPriority == priority) by {
        if r.Some? {
          var i :| 0 <= i < |ps[1..]| && ps[1..][i] == r.value &&
                   forall j :: 0 <= j < i ==> !(ps[1..][j].isGroup && ps[1..][j].defaultPriority == priority);
          assert ps[i + 1] == r.value;
          forall j | 0 <= j < i + 1
            ensures !(ps[j].isGroup && ps[j].defaultPriority == priority)
          {
            if j > 0 {
              assert ps[j] == ps[1..][j - 1];
            }
          }
        }
      }
      r
  }

  /** The first group of the list, if any. */
  function FirstGroup(ps: seq<Parameter>): (r: Option<Parameter>)
    ensures r.None? <==> forall i :: 0 <= i < |ps| ==> !ps[i].isGroup
    ensures r.Some? ==> exists i :: 0 <= i < |ps| && ps[i] == r.value && r.value.isGroup &&
                          forall j :: 0 <= j < i ==> !ps[j].isGroup
  {
    if ps == [] then None
    else if ps[0].isGroup then Some(ps[0])
    else
      var r := FirstGroup(ps[1..]);
      assert r.Some? ==> exists i :: 0 <= i < |ps| && ps[i] == r.value && r.value.isGroup &&
                           forall j :: 0 <= j < i ==> !ps[j].isGroup by {
        if r.Some? {
          var i :| 0 <= i < |ps[1..]| && ps[1..][i] == r.value && r.value.isGroup &&
                   forall j :: 0 <= j < i ==> !ps[1..][j].isGroup;
          assert ps[i + 1] == r.value;
          forall j | 0 <= j < i + 1
            ensures !ps[j].isGroup
          {
            if j > 0 {
              assert ps[j] == ps[1..][j - 1];
            }
          }
        }
      }
      r
  }

  /** The loop of DefaultGroup, remembering the first group seen. */
  function DefaultGroupLoop(ps: seq<Parameter>, firstGroup: Option<Parameter>): (r: Parameter)
    requires firstGroup.Some? ==> firstGroup.value.isGroup
    ensures FindByGroupDefaultPriority(ps, 1).Some? ==> r == FindByGroupDefaultPriority(ps, 1).value
    ensures FindByGroupDefaultPriority(ps, 1).None? && firstGroup.Some? ==> r == firstGroup.value
    ensures FindByGroupDefaultPriority(ps, 1).None? && firstGroup.None? ==> r == FirstGroup(ps).GetOr(ZeroParameter)
  {
    if ps == [] then firstGroup.GetOr(ZeroParameter)
    else if ps[0].isGroup && ps[0].defaultPriority == 1 then ps[0]
    else DefaultGroupLoop(ps[1..], if firstGroup.None? && ps[0].isGroup then Some(ps[0]) else firstGroup)
  }

  /** Parameters.DefaultGroup: the first group of priority 1, else the first
    * group, else the zero parameter. */
  function DefaultGroup(ps: seq<Parameter>): (r: Parameter)
    ensures FindByGroupDefaultPriority(ps, 1).Some? ==> r == FindByGroupDefaultPriority(ps, 1).value
    ensures FindByGroupDefaultPriority(ps, 1).None? ==> r == FirstGroup(ps).GetOr(ZeroParameter)
  {
    DefaultGroupLoop(ps, None)
  }

  /** A list with any group yields a group from the list as its default. */
  lemma DefaultGroupIsGroup(ps: seq<Parameter>)
    requires exists i :: 0 <= i < |ps| && ps[i].isGroup
    ensures DefaultGroup(ps).isGroup && DefaultGroup(ps) in ps
  {
    var i :| 0 <= i < |ps| && ps[i].isGroup;
    assert FirstGroup(ps).Some?;
  }
}
