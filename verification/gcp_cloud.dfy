/**
 * The GCP adapter's fixed parts (cloud/gcp/cloud.go): its limits, its
 * parameter table and the titles it remembers for parameter values.
 */
module GcpCloud {
  import opened Parameters

  /** MaxGroupBy: BigQuery has no limit of its own; the page allows four. */
  const MaxGroupBy: int := 4

  /** For each parameter id, the title recorded for each value. */
  type ParameterValues = map<string, map<string, string>>

  /** setParameterValue: the first title recorded for a value stays; later
    * ones are ignored. The parameter's table is created on first use. */
  function SetParameterValue(pv: ParameterValues, parameter: string, value: string, title: string)
    : (r: ParameterValues)
    ensures r.Keys == pv.Keys + {parameter}
    ensures value in r[parameter]
    ensures parameter in pv && value in pv[parameter] ==> r == pv
    ensures !(parameter in pv && value in pv[parameter]) ==> r[parameter][value] == title
    ensures forall v :: v != value && parameter in pv && v in pv[parameter] ==>
              v in r[parameter] && r[parameter][v] == pv[parameter][v]
    ensures forall p :: p in pv && p != parameter ==> r[p] == pv[p]
  {
    var values := if parameter in pv then pv[parameter] else map[];
    if value in values then pv[parameter := values]
    else pv[parameter := values[value := title]]
  }

  /** ParameterTitle: the default when the parameter was never recorded;
    * otherwise the recorded title of the value, "" when there is none. */
  function ParameterTitle(pv: ParameterValues, id: string, defaultValue: string): (r: string)
    ensures id !in pv ==> r == defaultValue
    ensures id in pv && defaultValue in pv[id] ==> r == pv[id][defaultValue]
    ensures id in pv && defaultValue !in pv[id] ==> r == ""
  {
    if id !in pv then defaultValue
    else if defaultValue in pv[id] then pv[id][defaultValue]
    else ""
  }

  /** A title recorded first is the title later looked up, whatever is
    * recorded for the same value afterwards. */
  lemma FirstTitleWins(pv: ParameterValues, parameter: string, value: string, first: string, later: string)
    requires !(parameter in pv && value in pv[parameter])
    ensures var r := SetParameterValue(SetParameterValue(pv, parameter, value, first), parameter, value, later);
            ParameterTitle(r, parameter, value) == first
  {
  }

  /** On a fresh cloud, the recorded title is found. */
  lemma TitleOfRecorded(parameter: string, value: string, title: string)
    ensures ParameterTitle(SetParameterValue(map[], parameter, value, title), parameter, value) == title
  {
  }

  function GroupFilter(id: string, name: string, priority: int): Parameter {
    Parameter(id, name, "", priority, true, true, true, false, false)
  }

  function DataGroup(id: string, name: string): Parameter {
    Parameter(id, name, "", 0, true, false, true, true, false)
  }

  /** The parameter table built by load. */
  const GcpParameters: seq<Parameter> := [
    GroupFilter("PROJECT", "Project", 1),
    GroupFilter("SERVICE", "Service", 2),
    GroupFilter("REGION", "Region", 0),
    GroupFilter("SKU", "SKU", 3),
    GroupFilter("COSTTYPE", "Cost type", 0),
    GroupFilter("RESOURCE", "Resource", 0),
    DataGroup("LABEL", "Label"),
    DataGroup("SYSLABEL", "Syslabel"),
    DataGroup("TAGS", "Tags")
  ]

  /** The parameters that carry data are exactly LABEL, SYSLABEL and TAGS;
    * each is a group and a filter, none requires its data and none can be a
    * group filter. */
  lemma GcpDataParameters()
    ensures forall p :: p in GcpParameters && p.hasData <==>
              p in GcpParameters && p.id in {"LABEL", "SYSLABEL", "TAGS"}
    ensures forall p :: p in GcpParameters && p.hasData ==>
              p.isGroup && p.isFilter && !p.dataRequired && !p.isGroupFilter
  {
  }

  /** Over this table PROJECT is the default group. */
  lemma GcpDefaultGroup()
    ensures DefaultGroup(GcpParameters).id == "PROJECT"
  {
    assert GcpParameters[0].isGroup && GcpParameters[0].defaultPriority == 1;
  }

  /** SERVICE is the group of priority 2. */
  lemma GcpPriorityTwo()
    ensures FindByGroupDefaultPriority(GcpParameters, 2).Some? &&
            FindByGroupDefaultPriority(GcpParameters, 2).value.id == "SERVICE"
  {
    assert GcpParameters[1].isGroup && GcpParameters[1].defaultPriority == 2;
  }

  /** SKU is the group of priority 3. */
  lemma GcpPriorityThree()
    ensures FindByGroupDefaultPriority(GcpParameters, 3).Some? &&
            FindByGroupDefaultPriority(GcpParameters, 3).value.id == "SKU"
  {
    assert GcpParameters[3].isGroup && GcpParameters[3].defaultPriority == 3;
  }
}
