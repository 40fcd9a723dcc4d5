/** The two tool whitelists of internal/agent/tools.go. */
module AgentTools {
  import opened Basics

  /** What the dry run uses of a write tool. */
  datatype Tool = Tool(name: string, risk: string, rollback: string)

  const READ_ONLY_TOOLS: seq<string> := [
    "describe_ecs_instances", "describe_ecs_instance_status", "describe_ecs_monitor_data",
    "describe_rds_instances", "describe_rds_slow_logs", "describe_slb_load_balancers",
    "describe_cms_metric_list", "lookup_actiontrail_events", "list_tag_resources", "describe_oss_buckets"]

  const WRITE_TOOLS: seq<Tool> := [
    Tool("restart_ecs_instance", "medium", "n/a (transient reboot)"),
    Tool("scale_rds_instance", "high", "ModifyDBInstanceSpec (downgrade)"),
    Tool("restart_rds_instance", "medium", "n/a"),
    Tool("remove_ecs_from_slb", "medium", "AddBackendServers")]

  predicate IsAllowed(name: string) {
    name in READ_ONLY_TOOLS
  }

  function Find(tools: seq<Tool>, name: string): (r: Option<Tool>)
    ensures r.Some? ==> r.value in tools && r.value.name == name
    ensures r.None? ==> forall t :: t in tools ==> t.name != name
  {
    if tools == [] then None else if tools[0].name == name then Some(tools[0]) else Find(tools[1..], name)
  }

  function GetWriteTool(name: string): (r: Option<Tool>) {
    Find(WRITE_TOOLS, name)
  }

  /** No write tool is taken for a read-only one, so the order of the two tests does not matter. */
  lemma WhitelistsDisjoint(name: string)
    ensures !(IsAllowed(name) && GetWriteTool(name).Some?)
  {
    if GetWriteTool(name).Some? {
      var t := GetWriteTool(name).value;
      assert name[0] == 'r' || name[0] == 's';
      forall i | 0 <= i < |READ_ONLY_TOOLS| ensures READ_ONLY_TOOLS[i][0] == 'd' || READ_ONLY_TOOLS[i][0] == 'l' {
      }
    }
  }
}
