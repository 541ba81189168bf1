/** RecommendationsManager: the recommendations page. It asks for the owner's
    latest twenty recommendations and shows each with a badge coloured by
    its level. */
module RecommendationsPage {
  import opened Common
  import opened Entities
  import opened Browser
  import Agent

  /** How many recommendations the page asks for. */
  const PAGE_LIMIT: int := 20

  datatype ListRequest = ListRequest(ownerId: real, limit: int)

  /** levelColor: the badge variant of a level. */
  function LevelColor(level: string): (variant: string)
    ensures variant == "destructive" <==> level == Agent.ALERT
    ensures variant == "secondary" <==> level == Agent.WARN
    ensures variant == "default" <==> level != Agent.ALERT && level != Agent.WARN
  {
    if level == "ALERT" then "destructive" else if level == "WARN" then "secondary" else "default"
  }

  class RecommendationsManager {
    var items: seq<Recommendation>
    var loading: bool

    constructor ()
      ensures items == [] && !loading
    {
      items := [];
      loading := false;
    }

    /** load: no call without an active owner; otherwise the latest twenty
        are asked for and, on success, replace what was shown. */
    method Load(ownerId: Option<real>, outcome: Outcome<seq<Recommendation>>) returns (req: Option<ListRequest>)
      modifies this
      ensures !Active(ownerId) ==> req.None? && unchanged(this)
      ensures Active(ownerId) ==> req == Some(ListRequest(ownerId.value, PAGE_LIMIT)) && !loading
      ensures Active(ownerId) ==> items == if outcome.Success? then outcome.data else old(items)
    {
      if !Active(ownerId) {
        return None;
      }
      req := Some(ListRequest(ownerId.value, PAGE_LIMIT));
      loading := true;
      if outcome.Success? {
        items := outcome.data;
      }
      loading := false;
    }
  }
}
