/** backend/agents/router_agent.py: the classification envelope around the
    routing model. The model chain is foreign: it answers the enriched
    query with a classification or fails with a message. */
module RouterAgent {
  import opened Common
  import opened Strings

  /** The four agent types a classification may name. */
  datatype AgentType = SqlType | CsvType | RagType | GeneralType

  function TypeName(t: AgentType): string {
    match t
    case SqlType => "sql"
    case CsvType => "csv"
    case RagType => "rag"
    case GeneralType => "general"
  }

  /** A confidence is validated to lie in [0, 1]. */
  type Confidence = c: real | 0.0 <= c <= 1.0

  datatype Classification = Classification(agentType: AgentType, confidence: Confidence, reasoning: string, queryIntent: string)

  /** The data sources the caller says are available. */
  datatype RoutingContext = RoutingContext(hasSqlData: bool, hasCsvData: bool, hasDocuments: bool)

  const SqlMarker := "\n[Context: SQL database available]"
  const CsvMarker := "\n[Context: CSV files available]"
  const DocumentMarker := "\n[Context: Document knowledge base available]"

  /** The query the chain sees: the SQL, CSV and document markers, in that
      order, each only when its source is available. */
  function EnhancedQuery(query: string, context: RoutingContext): (r: string)
    ensures r == query + (if context.hasSqlData then SqlMarker else "") +
                         (if context.hasCsvData then CsvMarker else "") +
                         (if context.hasDocuments then DocumentMarker else "")
  {
    var withSql := if context.hasSqlData then query + SqlMarker else query;
    var withCsv := if context.hasCsvData then withSql + CsvMarker else withSql;
    if context.hasDocuments then withCsv + DocumentMarker else withCsv
  }

  /** Without any available source the query is passed on untouched. */
  lemma EnhancedQueryPlain(query: string, context: RoutingContext)
    requires !context.hasSqlData && !context.hasCsvData && !context.hasDocuments
    ensures EnhancedQuery(query, context) == query
  {
    assert query + "" == query;
  }

  /** `classify_query`: a failing chain is answered with a general
      classification of confidence 0.5 instead of an error. */
  function ClassifyQuery(query: string, context: RoutingContext, chain: string -> Result<Classification, string>): (r: Classification)
    ensures chain(EnhancedQuery(query, context)).Ok? ==> r == chain(EnhancedQuery(query, context)).value
    ensures chain(EnhancedQuery(query, context)).Err? ==>
      r.agentType == GeneralType && r.confidence == 0.5 &&
      r.reasoning == "Classification failed, defaulting to general agent. Error: " + chain(EnhancedQuery(query, context)).error &&
      r.queryIntent == "Unknown due to classification error"
  {
    match chain(EnhancedQuery(query, context))
    case Ok(c) => c
    case Err(m) => Classification(GeneralType, 0.5, "Classification failed, defaulting to general agent. Error: " + m, "Unknown due to classification error")
  }

  /** `route_query`: the agent node for a classified type; anything else
      goes to the general agent. */
  function RouteQuery(agentType: string): (r: string)
    ensures agentType == "sql" ==> r == "sql_agent"
    ensures agentType == "csv" ==> r == "csv_agent"
    ensures agentType == "rag" ==> r == "rag_agent"
    ensures agentType != "sql" && agentType != "csv" && agentType != "rag" ==> r == "general_agent"
  {
    if agentType == "sql" then "sql_agent"
    else if agentType == "csv" then "csv_agent"
    else if agentType == "rag" then "rag_agent"
    else "general_agent"
  }

  /** Every classified type reaches its own agent node, and distinct types
      reach distinct nodes. */
  lemma RouteQueryInjective(a: AgentType, b: AgentType)
    ensures RouteQuery(TypeName(a)) == RouteQuery(TypeName(b)) <==> a == b
  {
  }

  datatype RoutingResult = RoutingResult(classification: Classification, route: string, shouldRouteTo: string, confidence: Confidence, reasoning: string)

  /** `process_query`: the classification, its route and its type. */
  function ProcessQuery(query: string, context: RoutingContext, chain: string -> Result<Classification, string>): (r: RoutingResult)
    ensures r.classification == ClassifyQuery(query, context, chain)
    ensures r.shouldRouteTo == TypeName(r.classification.agentType)
    ensures r.route == RouteQuery(r.shouldRouteTo)
    ensures r.confidence == r.classification.confidence && r.reasoning == r.classification.reasoning
  {
    var c := ClassifyQuery(query, context, chain);
    RoutingResult(c, RouteQuery(TypeName(c.agentType)), TypeName(c.agentType), c.confidence, c.reasoning)
  }
}
