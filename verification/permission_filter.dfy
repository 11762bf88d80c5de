/**
 The permission list of the Permissions app: the two chained filters computed
 by `AllPermissions` (search terms, then entity type), the `emptyFilter` flag
 it hands to its heading, and the heading's filter controls as pure state
 updates.
 */
module PermissionFilter {
  import opened Seqs
  import opened Text

  datatype Entity = Entity(entityType: string)
  datatype App = App(name: string)
  datatype Role = Role(id: string, name: string)
  datatype Permission = Permission(app: App, role: Role, entities: seq<Entity>)

  /** Values of `selectedEntityType`: the dropdown index, with "All entities" held as -1. */
  const AllEntities: int := -1
  const Accounts: int := 1
  const Apps: int := 2

  /** The dropdown's item labels, indexed by the dropdown position. */
  const EntityTypeLabels: seq<string> := ["All entities", "Accounts", "Apps"]

  // ---------------------------------------------------------------------------
  // The search-terms stage

  /**
   `r` is the lower-cased slice of `searchTerms` starting at `start`, and
   everything of `searchTerms` outside that slice is whitespace.
   */
  ghost predicate LowerTrimmedAt(searchTerms: string, r: string, start: int) {
    && 0 <= start <= start + |r| <= |searchTerms|
    && r == Lower(searchTerms[start..start + |r|])
    && IsBlank(searchTerms[..start])
    && IsBlank(searchTerms[start + |r|..])
  }

  /** The search terms as compared: trimmed, then lower-cased. */
  function PrepareSearchTerms(searchTerms: string): (r: string)
    ensures exists start :: LowerTrimmedAt(searchTerms, r, start)
    ensures r == [] || (!IsWhitespace(r[0]) && !IsWhitespace(r[|r| - 1]))
    ensures r == [] <==> IsBlank(searchTerms)
    ensures forall i :: 0 <= i < |r| ==> !IsUpper(r[i])
  {
    var t := Trim(searchTerms);
    PreparedFacts(searchTerms, t);
    Lower(t)
  }

  /** What lower-casing the trimmed terms yields, gathered from the two lemmas below. */
  lemma PreparedFacts(searchTerms: string, t: string)
    requires t == Trim(searchTerms)
    ensures exists start :: LowerTrimmedAt(searchTerms, Lower(t), start)
    ensures Lower(t) == [] || (!IsWhitespace(Lower(t)[0]) && !IsWhitespace(Lower(t)[|Lower(t)| - 1]))
    ensures Lower(t) == [] <==> IsBlank(searchTerms)
    ensures forall i :: 0 <= i < |Lower(t)| ==> !IsUpper(Lower(t)[i])
  {
    LowerOfTrim(searchTerms, t);
    LowerKeepsEnds(t);
  }

  /** Lower-casing the trimmed terms keeps them the lower-cased trimmed slice. */
  lemma LowerOfTrim(searchTerms: string, t: string)
    requires exists start :: TrimmedAt(searchTerms, t, start)
    ensures exists start :: LowerTrimmedAt(searchTerms, Lower(t), start)
  {
    var start :| TrimmedAt(searchTerms, t, start);
    assert LowerTrimmedAt(searchTerms, Lower(t), start);
  }

  /** Lower-casing keeps the non-whitespace ends of trimmed terms. */
  lemma LowerKeepsEnds(t: string)
    requires t == [] || (!IsWhitespace(t[0]) && !IsWhitespace(t[|t| - 1]))
    ensures t == [] || (!IsWhitespace(Lower(t)[0]) && !IsWhitespace(Lower(t)[|t| - 1]))
  {
    if t != [] {
      LowerCharKeepsWhitespace(t[0]);
      LowerCharKeepsWhitespace(t[|t| - 1]);
    }
  }

  /**
   The search test applied to one permission, given the prepared terms: blank
   terms match everything, and otherwise the terms must occur in the
   lower-cased app name, role name or role id.
   */
  function MatchesSearch(p: Permission, prepared: string): (b: bool)
    ensures b <==> prepared == [] || IsSubstring(prepared, Lower(p.app.name))
                   || IsSubstring(prepared, Lower(p.role.name)) || IsSubstring(prepared, Lower(p.role.id))
  {
    prepared == []
    || Includes(Lower(p.app.name), prepared)
    || Includes(Lower(p.role.name), prepared)
    || Includes(Lower(p.role.id), prepared)
  }

  function SearchTest(prepared: string): Permission -> bool {
    p => MatchesSearch(p, prepared)
  }

  function SearchStage(permissions: seq<Permission>, searchTerms: string): (r: seq<Permission>)
    ensures |r| <= |permissions|
    ensures forall i :: 0 <= i < |r| ==>
              r[i] in permissions && MatchesSearch(r[i], PrepareSearchTerms(searchTerms))
    ensures forall i :: 0 <= i < |permissions| && MatchesSearch(permissions[i], PrepareSearchTerms(searchTerms))
                        ==> permissions[i] in r
  {
    Filter(permissions, SearchTest(PrepareSearchTerms(searchTerms)))
  }

  // ---------------------------------------------------------------------------
  // The entity-type stage

  predicate IsAppEntity(e: Entity) {
    e.entityType == "app"
  }

  /** Some entity holding the permission is not an app (an account). */
  predicate HasAccountEntity(p: Permission) {
    exists i :: 0 <= i < |p.entities| && !IsAppEntity(p.entities[i])
  }

  /** Some entity holding the permission is an app. */
  predicate HasAppEntity(p: Permission) {
    exists i :: 0 <= i < |p.entities| && IsAppEntity(p.entities[i])
  }

  /**
   The entity-type test applied to one permission: `entities.some(entity =>
   entity.type !== 'app')` for "Accounts", `entities.some(entity => entity.type
   === 'app')` for "Apps", and true for any other selector.
   */
  function MatchesEntityType(p: Permission, selectedEntityType: int): (b: bool)
    ensures selectedEntityType == Accounts ==> (b <==> HasAccountEntity(p))
    ensures selectedEntityType == Apps ==> (b <==> HasAppEntity(p))
    ensures selectedEntityType != Accounts && selectedEntityType != Apps ==> b
  {
    if selectedEntityType == Accounts then Any(p.entities, e => !IsAppEntity(e))
    else if selectedEntityType == Apps then Any(p.entities, e => IsAppEntity(e))
    else true
  }

  function EntityTest(selectedEntityType: int): Permission -> bool {
    p => MatchesEntityType(p, selectedEntityType)
  }

  function EntityStage(permissions: seq<Permission>, selectedEntityType: int): (r: seq<Permission>)
    ensures |r| <= |permissions|
    ensures forall i :: 0 <= i < |r| ==>
              r[i] in permissions && MatchesEntityType(r[i], selectedEntityType)
    ensures forall i :: 0 <= i < |permissions| && MatchesEntityType(permissions[i], selectedEntityType)
                        ==> permissions[i] in r
  {
    Filter(permissions, EntityTest(selectedEntityType))
  }

  // ---------------------------------------------------------------------------
  // The whole filter

  /** `filteredPermissions`: the search stage followed by the entity-type stage. */
  function FilteredPermissions(permissions: seq<Permission>, searchTerms: string, selectedEntityType: int)
    : (r: seq<Permission>)
    ensures |r| <= |permissions|
    ensures forall i :: 0 <= i < |r| ==>
              && r[i] in permissions
              && MatchesSearch(r[i], PrepareSearchTerms(searchTerms))
              && MatchesEntityType(r[i], selectedEntityType)
    ensures forall i :: 0 <= i < |permissions|
                        && MatchesSearch(permissions[i], PrepareSearchTerms(searchTerms))
                        && MatchesEntityType(permissions[i], selectedEntityType)
                        ==> permissions[i] in r
  {
    var prepared := PrepareSearchTerms(searchTerms);
    var searched := SearchStage(permissions, searchTerms);
    assert forall i :: 0 <= i < |permissions| && MatchesSearch(permissions[i], prepared)
                       ==> permissions[i] in searched;
    EntityStage(searched, selectedEntityType)
  }

  /** The one-pass reference: keep a permission when both tests hold. */
  function Selected(searchTerms: string, selectedEntityType: int): Permission -> bool {
    var prepared := PrepareSearchTerms(searchTerms);
    p => MatchesSearch(p, prepared) && MatchesEntityType(p, selectedEntityType)
  }

  /** The two chained filters select, in order, exactly what one combined filter selects. */
  lemma FilteredIsOnePass(permissions: seq<Permission>, searchTerms: string, selectedEntityType: int)
    ensures FilteredPermissions(permissions, searchTerms, selectedEntityType)
            == Filter(permissions, Selected(searchTerms, selectedEntityType))
  {
    var f := SearchTest(PrepareSearchTerms(searchTerms));
    var g := EntityTest(selectedEntityType);
    FilterChainIs(permissions, f, g, Selected(searchTerms, selectedEntityType));
  }

  /**
   The result keeps the input's order: it is a subsequence of `permissions`,
   so it is never longer and holds only records of the input.
   */
  lemma FilteredIsSubsequence(permissions: seq<Permission>, searchTerms: string, selectedEntityType: int)
    ensures var r := FilteredPermissions(permissions, searchTerms, selectedEntityType);
            && IsSubsequence(r, permissions)
            && |r| <= |permissions|
            && forall i :: 0 <= i < |r| ==> r[i] in permissions
  {
    var r := FilteredPermissions(permissions, searchTerms, selectedEntityType);
    FilteredIsOnePass(permissions, searchTerms, selectedEntityType);
    FilterIsSubsequence(permissions, Selected(searchTerms, selectedEntityType));
    SubsequenceIsShorter(r, permissions);
  }

  /** Blank search terms keep every permission in the search stage. */
  lemma BlankSearchKeepsAll(permissions: seq<Permission>, searchTerms: string)
    requires IsBlank(searchTerms)
    ensures SearchStage(permissions, searchTerms) == permissions
  {
    FilterKeepsAll(permissions, SearchTest(PrepareSearchTerms(searchTerms)));
  }

  /** With blank search terms and no entity restriction the list is shown unchanged. */
  lemma NoFilterIsIdentity(permissions: seq<Permission>, searchTerms: string, selectedEntityType: int)
    requires IsBlank(searchTerms)
    requires selectedEntityType != Accounts && selectedEntityType != Apps
    ensures FilteredPermissions(permissions, searchTerms, selectedEntityType) == permissions
  {
    BlankSearchKeepsAll(permissions, searchTerms);
    FilterKeepsAll(permissions, EntityTest(selectedEntityType));
  }

  /**
   Every permission shown contains the prepared search terms in its lower-cased
   app name, role name or role id (blank terms are contained in every string).
   */
  lemma FilteredMatchesTerms(permissions: seq<Permission>, searchTerms: string, selectedEntityType: int)
    ensures var prepared := PrepareSearchTerms(searchTerms);
            var r := FilteredPermissions(permissions, searchTerms, selectedEntityType);
            forall i :: 0 <= i < |r| ==>
              || IsSubstring(prepared, Lower(r[i].app.name))
              || IsSubstring(prepared, Lower(r[i].role.name))
              || IsSubstring(prepared, Lower(r[i].role.id))
  {
    var prepared := PrepareSearchTerms(searchTerms);
    var r := FilteredPermissions(permissions, searchTerms, selectedEntityType);
    forall i | 0 <= i < |r|
      ensures || IsSubstring(prepared, Lower(r[i].app.name))
              || IsSubstring(prepared, Lower(r[i].role.name))
              || IsSubstring(prepared, Lower(r[i].role.id))
    {
      if prepared == [] {
        EmptyIsSubstring(Lower(r[i].app.name));
      }
    }
  }

  /**
   The "Accounts" selector keeps exactly the search matches that have some
   non-app entity, in input order.
   */
  lemma AccountsSelectsAccountHolders(permissions: seq<Permission>, searchTerms: string)
    ensures var prepared := PrepareSearchTerms(searchTerms);
            FilteredPermissions(permissions, searchTerms, Accounts)
            == Filter(permissions, p => MatchesSearch(p, prepared) && HasAccountEntity(p))
  {
    var prepared := PrepareSearchTerms(searchTerms);
    FilteredIsOnePass(permissions, searchTerms, Accounts);
    FilterAgree(permissions, Selected(searchTerms, Accounts),
                p => MatchesSearch(p, prepared) && HasAccountEntity(p));
  }

  /**
   The "Apps" selector keeps exactly the search matches that have some app
   entity, in input order.
   */
  lemma AppsSelectsAppHolders(permissions: seq<Permission>, searchTerms: string)
    ensures var prepared := PrepareSearchTerms(searchTerms);
            FilteredPermissions(permissions, searchTerms, Apps)
            == Filter(permissions, p => MatchesSearch(p, prepared) && HasAppEntity(p))
  {
    var prepared := PrepareSearchTerms(searchTerms);
    FilteredIsOnePass(permissions, searchTerms, Apps);
    FilterAgree(permissions, Selected(searchTerms, Apps),
                p => MatchesSearch(p, prepared) && HasAppEntity(p));
  }

  /**
   Any selector other than "Accounts" and "Apps" restricts nothing, and the two
   restricting selectors each show a subsequence of the unrestricted list.
   */
  lemma SelectorsNarrowAllEntities(permissions: seq<Permission>, searchTerms: string, selectedEntityType: int)
    ensures selectedEntityType != Accounts && selectedEntityType != Apps ==>
              FilteredPermissions(permissions, searchTerms, selectedEntityType)
              == SearchStage(permissions, searchTerms)
    ensures IsSubsequence(FilteredPermissions(permissions, searchTerms, Accounts),
                          FilteredPermissions(permissions, searchTerms, AllEntities))
    ensures IsSubsequence(FilteredPermissions(permissions, searchTerms, Apps),
                          FilteredPermissions(permissions, searchTerms, AllEntities))
  {
    var searched := SearchStage(permissions, searchTerms);
    if selectedEntityType != Accounts && selectedEntityType != Apps {
      FilterKeepsAll(searched, EntityTest(selectedEntityType));
    }
    FilterStrongerIsSubsequence(searched, EntityTest(Accounts), EntityTest(AllEntities));
    FilterStrongerIsSubsequence(searched, EntityTest(Apps), EntityTest(AllEntities));
  }

  // ---------------------------------------------------------------------------
  // The empty-result flag

  /** JavaScript truthiness of a length. */
  predicate Truthy(n: int) {
    n != 0
  }

  /** `Boolean(!filteredPermissions.length && permissions.length)`. */
  function EmptyFilter(permissions: seq<Permission>, filtered: seq<Permission>): (b: bool)
    ensures b <==> filtered == [] && permissions != []
  {
    if Truthy(|filtered|) then false else Truthy(|permissions|)
  }

  /**
   The flag is raised only when a filter is actually active: non-blank search
   terms or a restricting entity selector.
   */
  lemma EmptyFilterNeedsActiveFilter(permissions: seq<Permission>, searchTerms: string, selectedEntityType: int)
    requires EmptyFilter(permissions, FilteredPermissions(permissions, searchTerms, selectedEntityType))
    ensures !IsBlank(searchTerms) || selectedEntityType == Accounts || selectedEntityType == Apps
  {
    if IsBlank(searchTerms) && selectedEntityType != Accounts && selectedEntityType != Apps {
      NoFilterIsIdentity(permissions, searchTerms, selectedEntityType);
    }
  }

  // ---------------------------------------------------------------------------
  // The heading's filter controls

  /**
   `handleEntityDropDownChange`: `index || -1`, so the first item ("All
   entities", index 0) is stored as -1 and any other index as itself.
   */
  function NormalizeEntityIndex(index: int): (selected: int)
    ensures selected != 0
    ensures index == 0 ==> selected == AllEntities
    ensures index != 0 ==> selected == index
  {
    if Truthy(index) then index else AllEntities
  }

  /** Normalising the dropdown index never changes what the list shows. */
  lemma NormalizeKeepsFilter(permissions: seq<Permission>, searchTerms: string, index: int)
    ensures FilteredPermissions(permissions, searchTerms, NormalizeEntityIndex(index))
            == FilteredPermissions(permissions, searchTerms, index)
  {
    SelectorsNarrowAllEntities(permissions, searchTerms, index);
    SelectorsNarrowAllEntities(permissions, searchTerms, NormalizeEntityIndex(index));
  }

  /** The three dropdown items select "no restriction", "Accounts" and "Apps". */
  lemma DropDownItemsSelect()
    ensures |EntityTypeLabels| == 3
    ensures NormalizeEntityIndex(0) == AllEntities && EntityTypeLabels[0] == "All entities"
    ensures NormalizeEntityIndex(1) == Accounts && EntityTypeLabels[Accounts] == "Accounts"
    ensures NormalizeEntityIndex(2) == Apps && EntityTypeLabels[Apps] == "Apps"
  {
  }

  /**
   The filter state shared by `AllPermissions` and its `Heading`: the selected
   entity type, the search terms the list is filtered by, and the text shown in
   the search field.
   */
  datatype FilterState = FilterState(selectedEntityType: int, searchTerms: string, searchInputValue: string)

  /** The user actions on the heading's controls. */
  datatype FilterEvent =
    | EntityDropDownChange(index: int)
      /** A keystroke in the search field. */
    | SearchInputChange(value: string)
      /** The debounced forwarding of the search field's value to the list. */
    | SearchTermsCommitted(value: string)
    | ClearFilters

  /** Both components start unfiltered, and the field shows the initial search terms. */
  function InitialFilterState(): (s: FilterState)
    ensures s.selectedEntityType == AllEntities
    ensures s.searchTerms == "" && s.searchInputValue == s.searchTerms
  {
    FilterState(AllEntities, "", "")
  }

  function ApplyFilterEvent(s: FilterState, e: FilterEvent): (r: FilterState)
    ensures e.EntityDropDownChange? ==>
              r == s.(selectedEntityType := NormalizeEntityIndex(e.index))
    ensures e.SearchInputChange? ==>
              r.searchInputValue == e.value && r.searchTerms == s.searchTerms
              && r.selectedEntityType == s.selectedEntityType
    ensures e.SearchTermsCommitted? ==>
              r.searchTerms == e.value && r.searchInputValue == s.searchInputValue
              && r.selectedEntityType == s.selectedEntityType
    ensures e.ClearFilters? ==>
              r.selectedEntityType == AllEntities && r.searchTerms == "" && r.searchInputValue == ""
  {
    match e
    case EntityDropDownChange(index) => s.(selectedEntityType := NormalizeEntityIndex(index))
    case SearchInputChange(value) => s.(searchInputValue := value)
    case SearchTermsCommitted(value) => s.(searchTerms := value)
    case ClearFilters => s.(selectedEntityType := AllEntities, searchTerms := "", searchInputValue := "")
  }

  /** Clearing the filters shows the whole list again and lowers the empty-result flag. */
  lemma ClearShowsEverything(permissions: seq<Permission>, s: FilterState)
    ensures var c := ApplyFilterEvent(s, ClearFilters);
            && FilteredPermissions(permissions, c.searchTerms, c.selectedEntityType) == permissions
            && !EmptyFilter(permissions, FilteredPermissions(permissions, c.searchTerms, c.selectedEntityType))
  {
    NoFilterIsIdentity(permissions, "", AllEntities);
  }

  function ApplyFilterEvents(s: FilterState, events: seq<FilterEvent>): FilterState
    decreases |events|
  {
    if events == [] then s else ApplyFilterEvents(ApplyFilterEvent(s, events[0]), events[1..])
  }

  /** Starting unfiltered, the stored selector is never 0: "All entities" is always -1. */
  lemma {:induction false} SelectorNeverZero(s: FilterState, events: seq<FilterEvent>)
    requires s.selectedEntityType != 0
    ensures ApplyFilterEvents(s, events).selectedEntityType != 0
    decreases |events|
  {
    if events != [] {
      SelectorNeverZero(ApplyFilterEvent(s, events[0]), events[1..]);
    }
  }

  /** A single "Voting" permission held by an app, searched for "vote". */
  function VotingPermission(): Permission {
    Permission(App("Voting"), Role("CREATE_VOTE", "Create votes"), [Entity("app")])
  }

  lemma PrepareVote()
    ensures PrepareSearchTerms("vote") == "vote"
  {
    assert !IsWhitespace('v') && !IsWhitespace('e');
    assert TrimStart("vote") == "vote";
    assert TrimEnd("vote") == "vote";
    assert Lower("vote") == "vote";
  }

  lemma VotingMatchesVote()
    ensures MatchesSearch(VotingPermission(), PrepareSearchTerms("vote"))
  {
    PrepareVote();
    var roleName := Lower("Create votes");
    assert roleName[7..11] == "vote";
    assert OccursAt("vote", roleName, 7);
  }

  lemma VotingSearchKeepsIt()
    ensures SearchStage([VotingPermission()], "vote") == [VotingPermission()]
  {
    VotingMatchesVote();
    FilterKeepsAll([VotingPermission()], SearchTest(PrepareSearchTerms("vote")));
  }

  /** Searching "vote" shows the record under "All entities" and "Apps"... */
  lemma VotingShownForApps()
    ensures FilteredPermissions([VotingPermission()], "vote", AllEntities) == [VotingPermission()]
    ensures FilteredPermissions([VotingPermission()], "vote", Apps) == [VotingPermission()]
  {
    var voting := VotingPermission();
    VotingSearchKeepsIt();
    assert IsAppEntity(voting.entities[0]);
    FilterKeepsAll([voting], EntityTest(AllEntities));
    FilterKeepsAll([voting], EntityTest(Apps));
  }

  /** ...and under "Accounts" shows nothing, which raises the empty-result flag. */
  lemma VotingHiddenForAccounts()
    ensures FilteredPermissions([VotingPermission()], "vote", Accounts) == []
    ensures EmptyFilter([VotingPermission()], FilteredPermissions([VotingPermission()], "vote", Accounts))
  {
    var voting := VotingPermission();
    VotingSearchKeepsIt();
    assert !HasAccountEntity(voting);
  }
}
