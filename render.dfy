/** The renderer (`renderCards`) as a builder of a list of display nodes,
    and the search handler that feeds it. */
module Render {
  import opened Text
  import opened Catalog
  import opened Search

  /** One `<li>` entry of a card's tool or workflow list. */
  datatype ListItem = Item(text: String)

  /** What the container shows: the "no results" paragraph, or one card
      with its accent colour, icon, title, description, tool list and
      numbered workflow list. */
  datatype Node =
    | Placeholder(message: String)
    | Card(color: String, icon: String, title: String, description: String,
           tools: seq<ListItem>, workflow: seq<ListItem>)

  const NoResultsMessage: String := "No se encontraron resultados para la búsqueda."

  /** `xs.map(x => `<li>${x}</li>`)`: one item per entry, in order. */
  function ListItems(xs: seq<String>): (r: seq<ListItem>)
    ensures |r| == |xs|
    ensures forall k :: 0 <= k < |xs| ==> r[k].text == xs[k]
  {
    if xs == [] then [] else [Item(xs[0])] + ListItems(xs[1..])
  }

  /** The card built for one category. */
  function CardOf(c: AutomationCategory): Node {
    Card(c.color, c.icon, c.category, c.description, ListItems(c.tools), ListItems(c.workflow))
  }

  /** What the grid holds once `data` has been rendered: the single
      placeholder for an empty list, otherwise one card per category, in
      order, carrying that category's title, description, colour, icon and
      its tool and workflow items in order. */
  predicate Renders(data: seq<AutomationCategory>, nodes: seq<Node>) {
    if data == [] then nodes == [Placeholder(NoResultsMessage)]
    else
      && |nodes| == |data|
      && forall i :: 0 <= i < |data| ==>
        && nodes[i].Card?
        && nodes[i].title == data[i].category
        && nodes[i].description == data[i].description
        && nodes[i].color == data[i].color
        && nodes[i].icon == data[i].icon
        && |nodes[i].tools| == |data[i].tools|
        && (forall k :: 0 <= k < |data[i].tools| ==> nodes[i].tools[k].text == data[i].tools[k])
        && |nodes[i].workflow| == |data[i].workflow|
        && (forall k :: 0 <= k < |data[i].workflow| ==> nodes[i].workflow[k].text == data[i].workflow[k])
  }

  /** `renderCards(data)`: the container is cleared; an empty list gives the
      single placeholder, otherwise one card per category is appended in order. */
  method RenderCards(data: seq<AutomationCategory>) returns (nodes: seq<Node>)
    ensures Renders(data, nodes)
  {
    nodes := [];
    if |data| == 0 {
      nodes := [Placeholder(NoResultsMessage)];
      return;
    }
    var i := 0;
    while i < |data|
      invariant 0 <= i <= |data|
      invariant |nodes| == i
      invariant forall j :: 0 <= j < i ==> nodes[j] == CardOf(data[j])
    {
      var card := CardOf(data[i]);
      nodes := nodes + [card];
      i := i + 1;
    }
  }

  /** The input handler: search with the typed term and render the result.
      The grid shows exactly the search result; the placeholder appears
      exactly when nothing is selected, and every card shown belongs to a
      selected category. */
  method OnSearchInput(catalog: seq<AutomationCategory>, searchTerm: String) returns (nodes: seq<Node>)
    ensures Renders(FilterContent(catalog, searchTerm), nodes)
    ensures nodes == [Placeholder(NoResultsMessage)] <==>
      forall c :: c in catalog ==> !Selects(searchTerm, c)
    ensures forall n :: n in nodes && n.Card? ==>
      exists c :: c in catalog && Selects(searchTerm, c) && n.title == c.category
  {
    var shown := FilterContent(catalog, searchTerm);
    nodes := RenderCards(shown);
    if shown != [] {
      assert shown[0] in shown;
      forall n | n in nodes && n.Card?
        ensures exists c :: c in catalog && Selects(searchTerm, c) && n.title == c.category
      {
        var i :| 0 <= i < |nodes| && nodes[i] == n;
        assert shown[i] in shown;
      }
    }
  }

  /** The first render once the page has loaded: the full card of every
      catalog category, in catalog order. */
  method InitialRender() returns (nodes: seq<Node>)
    ensures Renders(AutomationData, nodes)
  {
    nodes := RenderCards(AutomationData);
  }
}
