/** `buildSearchFilter` (src/app/utils/searchFilter.ts). */
module SearchFilter {
  import opened Common
  import opened Query

  /** The where-object for a free-text search over title and description. */
  function BuildSearchFilter(searchTerm: Option<string>): (w: Where)
    ensures !Present(searchTerm) <==> w == Everything
    ensures Present(searchTerm) ==>
              && w.fields.Keys == {"OR"}
              && w.fields["OR"].AnyOf?
              && |w.fields["OR"].alternatives| == 2
              && w.fields["OR"].alternatives[0] == Where(map["title" := Contains(searchTerm.value, Insensitive)])
              && w.fields["OR"].alternatives[1] == Where(map["description" := Contains(searchTerm.value, Insensitive)])
  {
    if !Present(searchTerm) then
      Everything
    else
      var t := searchTerm.value;
      var w := Where(map["OR" := AnyOf([
        Where(map["title" := Contains(t, Insensitive)]),
        Where(map["description" := Contains(t, Insensitive)])
      ])]);
      assert "OR" in w.fields;
      w
  }

  /**
   * A row passes the filter exactly when there is no search term, or the term
   * occurs, ignoring case, in its title or in its description.
   */
  lemma SearchFilterMeaning(searchTerm: Option<string>, r: Row)
    ensures Holds(BuildSearchFilter(searchTerm), r) <==>
              !Present(searchTerm)
              || TextMatches(r, "title", searchTerm.value)
              || TextMatches(r, "description", searchTerm.value)
  {
    if Present(searchTerm) {
      var t := searchTerm.value;
      var alts := BuildSearchFilter(searchTerm).fields["OR"].alternatives;
      HoldsSingle("OR", AnyOf(alts), r);
      HoldsSingle("title", Contains(t, Insensitive), r);
      HoldsSingle("description", Contains(t, Insensitive), r);
      assert ClauseHolds("OR", AnyOf(alts), r) <==> Holds(alts[0], r) || Holds(alts[1], r);
    }
  }
}
