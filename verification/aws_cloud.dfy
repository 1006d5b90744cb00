/**
 * The AWS adapter's fixed parts (cloud/aws/cloud.go): its limits, its
 * parameter table and the titles of linked accounts.
 */
module AwsCloud {
  import opened Parameters

  /** MaxGroupBy: the AWS cost explorer groups by at most two dimensions. */
  const MaxGroupBy: int := 2

  const LinkedAccount: string := "LINKED_ACCOUNT"

  /** ParameterTitle: for the linked-account parameter, the account's name
    * when it is known; the value itself otherwise and for every other
    * parameter. The account names are loaded from AWS Organizations. */
  function ParameterTitle(linkedAccounts: map<string, string>, id: string, defaultValue: string): (r: string)
    ensures id != LinkedAccount ==> r == defaultValue
    ensures id == LinkedAccount && defaultValue in linkedAccounts ==> r == linkedAccounts[defaultValue]
    ensures id == LinkedAccount && defaultValue !in linkedAccounts ==> r == defaultValue
  {
    if id != LinkedAccount then defaultValue
    else if defaultValue in linkedAccounts then linkedAccounts[defaultValue]
    else defaultValue
  }

  /** A title is the value itself unless it names a known account. */
  lemma ParameterTitleKnown(linkedAccounts: map<string, string>, id: string, v: string)
    ensures ParameterTitle(linkedAccounts, id, v) != v ==>
              id == LinkedAccount && v in linkedAccounts && linkedAccounts[v] != v
  {
  }

  function GroupFilter(id: string, name: string, priority: int): Parameter {
    Parameter(id, name, "", priority, true, true, true, false, false)
  }

  /** The parameter table built by load. */
  const AwsParameters: seq<Parameter> := [
    GroupFilter("LINKED_ACCOUNT", "Linked account", 1),
    GroupFilter("SERVICE", "Service", 2),
    GroupFilter("REGION", "Region", 0),
    GroupFilter("USAGE_TYPE", "Usage type", 3),
    Parameter("USAGE_TYPE_GROUP", "Usage type group", "", 0, false, false, true, false, false),
    Parameter("RESOURCE_ID", "Resource ID", "Resource ID (only last 14 days)", 0, true, true, true, false, false),
    GroupFilter("INSTANCE_TYPE", "Instance type", 0),
    GroupFilter("INSTANCE_TYPE_FAMILY", "Instance type family", 0),
    Parameter("PURCHASE_TYPE", "Purchase type", "", 0, false, true, true, false, false),
    GroupFilter("OPERATION", "Operation", 0),
    GroupFilter("PLATFORM", "Platform", 0),
    GroupFilter("TENANCY", "Tenancy", 0),
    GroupFilter("DEPLOYMENT_OPTION", "Deployment option", 0),
    GroupFilter("RESERVATION_ID", "Reservation ID", 0),
    GroupFilter("RECORD_TYPE", "Record type", 0),
    GroupFilter("AZ", "AZ", 0),
    GroupFilter("SAVINGS_PLANS_TYPE", "Savings plans type", 0),
    GroupFilter("SAVINGS_PLAN_ARN", "Savings plan ARN", 0),
    Parameter("TAG", "Tag", "", 0, true, true, true, true, true)
  ]

  /** Over this table LINKED_ACCOUNT is the default group. */
  lemma AwsDefaultGroup()
    ensures DefaultGroup(AwsParameters).id == LinkedAccount
  {
    assert AwsParameters[0].isGroup && AwsParameters[0].defaultPriority == 1;
  }

  /** SERVICE is the group of priority 2. */
  lemma AwsPriorityTwo()
    ensures FindByGroupDefaultPriority(AwsParameters, 2).Some? &&
            FindByGroupDefaultPriority(AwsParameters, 2).value.id == "SERVICE"
  {
    assert AwsParameters[1].isGroup && AwsParameters[1].defaultPriority == 2;
  }

  /** USAGE_TYPE is the group of priority 3. */
  lemma AwsPriorityThree()
    ensures FindByGroupDefaultPriority(AwsParameters, 3).Some? &&
            FindByGroupDefaultPriority(AwsParameters, 3).value.id == "USAGE_TYPE"
  {
    assert AwsParameters[3].isGroup && AwsParameters[3].defaultPriority == 3;
  }

  /** USAGE_TYPE_GROUP and PURCHASE_TYPE filter but do not group; TAG is the
    * only parameter with data, and it requires it. */
  lemma AwsParameterKinds()
    ensures forall i :: 0 <= i < |AwsParameters| && !AwsParameters[i].isGroup ==>
              AwsParameters[i].id in {"USAGE_TYPE_GROUP", "PURCHASE_TYPE"} && AwsParameters[i].isFilter
    ensures forall i :: 0 <= i < |AwsParameters| && AwsParameters[i].hasData ==>
              AwsParameters[i].id == "TAG" && AwsParameters[i].dataRequired
    ensures AwsParameters[18].id == "TAG" && AwsParameters[18].hasData
  {
  }
}
