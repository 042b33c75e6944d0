/**
 * The workflows section: which workflow's diagram is unfolded and which of its
 * nodes is highlighted; plus the site's three workflows as a fixture.
 */
module Workflows {
  import opened Wrappers
  import Selection
  import Blueprint

  datatype AgentWorkflow = AgentWorkflow(
    id: string,
    title: string,
    description: string,
    nodes: seq<Blueprint.Node>,
    connections: seq<Blueprint.Connection>)

  function WorkflowIds(workflows: seq<AgentWorkflow>): (ids: seq<string>)
    ensures |ids| == |workflows| && forall i :: 0 <= i < |workflows| ==> ids[i] == workflows[i].id
  {
    seq(|workflows|, i requires 0 <= i < |workflows| => workflows[i].id)
  }

  /** The section's two state cells and the handlers that overwrite them. */
  class WorkflowsSection {
    var activeNodeId: Option<string>
    var expandedWorkflowId: Option<string>

    /** The first workflow starts unfolded (none if there are none); no node is active. */
    constructor (workflows: seq<AgentWorkflow>)
      ensures expandedWorkflowId == if |workflows| > 0 then Some(workflows[0].id) else None
      ensures activeNodeId == None
    {
      activeNodeId := None;
      expandedWorkflowId := if |workflows| > 0 then Some(workflows[0].id) else None;
    }

    /** `handleNodeClick`: un-highlight the active node, or highlight another; panels untouched. */
    method HandleNodeClick(nodeId: string)
      modifies this
      ensures activeNodeId == Selection.Toggle(old(activeNodeId), nodeId)
      ensures expandedWorkflowId == old(expandedWorkflowId)
    {
      activeNodeId := if activeNodeId == Some(nodeId) then None else Some(nodeId);
    }

    /** `handleWorkflowToggle`: fold the open workflow or open another; always clears the node. */
    method HandleWorkflowToggle(workflowId: string)
      modifies this
      ensures expandedWorkflowId == Selection.Toggle(old(expandedWorkflowId), workflowId)
      ensures activeNodeId == None
    {
      expandedWorkflowId := if expandedWorkflowId == Some(workflowId) then None else Some(workflowId);
      activeNodeId := None;
    }

    /** Which workflows render their `BlueprintDiagram`, in list order. */
    function ShownDiagrams(workflows: seq<AgentWorkflow>): (shown: seq<bool>)
      reads this
      ensures |shown| == |workflows|
      ensures forall i :: 0 <= i < |workflows| ==> (shown[i] <==> expandedWorkflowId == Some(workflows[i].id))
      ensures Selection.Distinct(WorkflowIds(workflows)) ==> Selection.CountTrue(shown) <= 1
    {
      var shown := Selection.SelectedFlags(WorkflowIds(workflows), expandedWorkflowId);
      if Selection.Distinct(WorkflowIds(workflows)) then
        Selection.AtMostOneSelected(WorkflowIds(workflows), expandedWorkflowId);
        shown
      else shown
    }
  }

  /** Opening a workflow and clicking a node, then switching workflow, leaves no node active. */
  method SwitchClearsNode(workflows: seq<AgentWorkflow>, nodeId: string, other: string)
    returns (active: Option<string>, expanded: Option<string>)
    requires |workflows| > 0 && other != workflows[0].id
    ensures active == None && expanded == Some(other)
  {
    var section := new WorkflowsSection(workflows);
    section.HandleNodeClick(nodeId);
    assert section.activeNodeId == Some(nodeId);
    section.HandleWorkflowToggle(other);
    active, expanded := section.activeNodeId, section.expandedWorkflowId;
  }

  function N(id: string, text: string, kind: Blueprint.NodeType, x: int, y: int): Blueprint.Node
  {
    Blueprint.Node(id, text, kind, Blueprint.Position(x, y))
  }

  function C(from: string, to: string, animated: bool): Blueprint.Connection
  {
    Blueprint.Connection(from, to, Some(animated))
  }

  const CustomerSupport := AgentWorkflow(
    "customer-support-pipeline",
    "AI Customer Support Pipeline",
    "An intelligent customer support system that automatically triages incoming requests, routes them to specialized AI agents, and escalates complex issues to human operators. The pipeline handles email, chat, and form submissions with consistent quality.",
    [ N("input-channels", "Input Channels", Blueprint.Input, 50, 20),
      N("triage-agent", "Triage Agent", Blueprint.AiAgent, 50, 100),
      N("faq-agent", "FAQ Agent", Blueprint.AiAgent, 0, 180),
      N("technical-agent", "Tech Support", Blueprint.AiAgent, 160, 180),
      N("response-gen", "Response Gen", Blueprint.Process, 80, 260),
      N("human-escalation", "Human Review", Blueprint.Output, 200, 260),
      N("customer-response", "Send Response", Blueprint.Output, 80, 340) ],
    [ C("input-channels", "triage-agent", true),
      C("triage-agent", "faq-agent", false),
      C("triage-agent", "technical-agent", false),
      C("triage-agent", "human-escalation", false),
      C("faq-agent", "response-gen", true),
      C("technical-agent", "response-gen", true),
      C("response-gen", "customer-response", true) ])

  const ContentGeneration := AgentWorkflow(
    "content-generation-workflow",
    "Content Generation Workflow",
    "A multi-agent content creation system that researches topics, generates drafts, reviews for quality and SEO optimization, and publishes to multiple platforms. Ideal for businesses needing consistent content output.",
    [ N("topic-input", "Topic Brief", Blueprint.Input, 100, 20),
      N("research-agent", "Research Agent", Blueprint.AiAgent, 100, 100),
      N("writer-agent", "Writer Agent", Blueprint.AiAgent, 100, 180),
      N("seo-optimizer", "SEO Optimizer", Blueprint.Process, 0, 260),
      N("editor-agent", "Editor Agent", Blueprint.AiAgent, 200, 260),
      N("publish-process", "Multi-Platform", Blueprint.Process, 100, 340),
      N("analytics-output", "Analytics", Blueprint.Output, 100, 420) ],
    [ C("topic-input", "research-agent", true),
      C("research-agent", "writer-agent", true),
      C("writer-agent", "seo-optimizer", false),
      C("writer-agent", "editor-agent", false),
      C("seo-optimizer", "publish-process", true),
      C("editor-agent", "publish-process", true),
      C("publish-process", "analytics-output", true) ])

  const LeadQualification := AgentWorkflow(
    "lead-qualification-system",
    "Lead Qualification System",
    "An automated lead processing pipeline that captures leads from multiple sources, enriches data, scores prospects, and routes qualified leads to sales teams while nurturing others through automated sequences.",
    [ N("lead-sources", "Lead Sources", Blueprint.Input, 100, 20),
      N("data-enrichment", "Data Enrichment", Blueprint.Process, 100, 100),
      N("scoring-agent", "Scoring Agent", Blueprint.AiAgent, 100, 180),
      N("hot-leads", "Hot Leads", Blueprint.Output, 0, 260),
      N("nurture-agent", "Nurture Agent", Blueprint.AiAgent, 200, 260),
      N("crm-sync", "CRM Sync", Blueprint.Process, 0, 340),
      N("email-sequences", "Email Sequences", Blueprint.Output, 200, 340) ],
    [ C("lead-sources", "data-enrichment", true),
      C("data-enrichment", "scoring-agent", true),
      C("scoring-agent", "hot-leads", false),
      C("scoring-agent", "nurture-agent", false),
      C("hot-leads", "crm-sync", true),
      C("nurture-agent", "email-sequences", true) ])

  const SiteWorkflows: seq<AgentWorkflow> := [CustomerSupport, ContentGeneration, LeadQualification]

  /** Every connection of a workflow names a node of that workflow at both ends. */
  predicate ConnectionsResolve(w: AgentWorkflow)
  {
    forall k :: 0 <= k < |w.connections| ==> Names(w.nodes, w.connections[k].from) && Names(w.nodes, w.connections[k].to)
  }

  /** Some node of the list has this id. */
  predicate Names(nodes: seq<Blueprint.Node>, id: string)
  {
    exists i :: 0 <= i < |nodes| && nodes[i].id == id
  }

  /** Under that condition every connection of the workflow is drawn as a curve. */
  lemma ResolvedConnectionsAreDrawn(w: AgentWorkflow, k: nat)
    requires ConnectionsResolve(w) && k < |w.connections|
    ensures Blueprint.ConnectionPath(w.nodes, w.connections[k]).Curve?
  {
  }

  /** A workflow resolves when each connection is given the indices of its two end nodes. */
  lemma ResolvedBy(w: AgentWorkflow, ends: seq<(nat, nat)>)
    requires |ends| == |w.connections|
    requires forall k :: 0 <= k < |ends| ==>
      ends[k].0 < |w.nodes| && w.nodes[ends[k].0].id == w.connections[k].from &&
      ends[k].1 < |w.nodes| && w.nodes[ends[k].1].id == w.connections[k].to
    ensures ConnectionsResolve(w)
  {
  }

  lemma CustomerSupportResolves()
    ensures ConnectionsResolve(CustomerSupport)
  {
    ResolvedBy(CustomerSupport, [(0, 1), (1, 2), (1, 3), (1, 5), (2, 4), (3, 4), (4, 6)]);
  }

  lemma ContentGenerationResolves()
    ensures ConnectionsResolve(ContentGeneration)
  {
    ResolvedBy(ContentGeneration, [(0, 1), (1, 2), (2, 3), (2, 4), (3, 5), (4, 5), (5, 6)]);
  }

  lemma LeadQualificationResolves()
    ensures ConnectionsResolve(LeadQualification)
  {
    ResolvedBy(LeadQualification, [(0, 1), (1, 2), (2, 3), (2, 4), (3, 5), (4, 6)]);
  }

  /** In the site's data every connection of every workflow is drawn as a curve. */
  lemma SiteConnectionsAreDrawn(w: AgentWorkflow, k: nat)
    requires w in SiteWorkflows && k < |w.connections|
    ensures Blueprint.ConnectionPath(w.nodes, w.connections[k]).Curve?
  {
    SiteWorkflowsWellFormed(w);
    ResolvedConnectionsAreDrawn(w, k);
  }

  /** The three workflow ids are distinct, so at most one diagram is ever unfolded. */
  lemma SiteWorkflowIdsDistinct()
    ensures Selection.Distinct(WorkflowIds(SiteWorkflows))
  {
  }

  lemma CustomerSupportIdsDistinct()
    ensures Selection.Distinct(Blueprint.NodeIds(CustomerSupport.nodes))
  {
  }

  lemma ContentGenerationIdsDistinct()
    ensures Selection.Distinct(Blueprint.NodeIds(ContentGeneration.nodes))
  {
  }

  lemma LeadQualificationIdsDistinct()
    ensures Selection.Distinct(Blueprint.NodeIds(LeadQualification.nodes))
  {
  }

  /** Each of the site's workflows has distinct node ids and only connections between its nodes. */
  lemma SiteWorkflowsWellFormed(w: AgentWorkflow)
    requires w in SiteWorkflows
    ensures Selection.Distinct(Blueprint.NodeIds(w.nodes)) && ConnectionsResolve(w)
    ensures w.nodes != []
  {
    CustomerSupportResolves();
    ContentGenerationResolves();
    LeadQualificationResolves();
    CustomerSupportIdsDistinct();
    ContentGenerationIdsDistinct();
    LeadQualificationIdsDistinct();
  }
}
