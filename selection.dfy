/**
 * `PrepareUpdateLists` of internal/provider/resource_online_update.go: how the
 * user's `update_list` is matched against the server's update collection to
 * split its designations into those to install and those to deselect.
 *
 * Each entry is trimmed and read as blank, the keyword `Others`, a designation
 * (it contains `/`), an allow-listed component, or an unrecognised word. With no
 * non-blank entry every update is selected; otherwise an item is selected when
 * its designation or its component was asked for, or when `Others` was asked
 * for and its component is not allow-listed.
 */
module Selection {
  import opened Models
  import opened GoStrings

  /** `allowedUpdateComponents`: the component categories an entry may name. */
  const AllowedUpdateComponents: set<string> := {
    "Agent-Lx", "Agent-Win", "FibreChannelController", "LanController", "ManagementController",
    "PrimSupportPack-Win", "ScsiController", "Storage", "SystemBoard", "Others"
  }

  /** The entry that asks for every update whose component is not allow-listed. */
  const OthersKeyword := "Others"

  /** How one entry of `update_list` reads once trimmed. */
  datatype Entry =
    | Blank
    | Others
    | DesignationEntry(designation: string)
    | ComponentEntry(component: string)
    | Unrecognized(text: string)

  /** How the first loop of `PrepareUpdateLists` reads an entry once it is trimmed. */
  function Read(trimmed: string): Entry {
    if trimmed == "" then Blank
    else if trimmed == OthersKeyword then Others
    else if '/' in trimmed then DesignationEntry(trimmed)
    else if trimmed in AllowedUpdateComponents then ComponentEntry(trimmed)
    else Unrecognized(trimmed)
  }

  /** The reading of one raw entry: `strings.TrimSpace`, then the tests above. */
  function Classify(raw: string): Entry {
    Read(TrimSpace(raw))
  }

  /** The classification of every entry, in list order. */
  function Classified(entries: seq<string>): (es: seq<Entry>)
    ensures |es| == |entries| && forall j :: 0 <= j < |entries| ==> es[j] == Classify(entries[j])
  {
    seq(|entries|, j requires 0 <= j < |entries| => Classify(entries[j]))
  }

  /** What the first loop collects: the sets of designations and components, `applyOthers`, `noneEmptyRequest`. */
  datatype Requests = Requests(designations: set<string>, components: set<string>, others: bool, nonEmpty: bool)

  /** The first loop of `PrepareUpdateLists`, over the readings of the entries seen so far. */
  function Scan(entries: seq<Entry>): Requests {
    if entries == [] then Requests({}, {}, false, false)
    else
      var q := Scan(entries[..|entries| - 1]);
      match entries[|entries| - 1]
      case Blank => q
      case Others => q.(others := true, nonEmpty := true)
      case DesignationEntry(d) => q.(designations := q.designations + {d}, nonEmpty := true)
      case ComponentEntry(c) => q.(components := q.components + {c}, nonEmpty := true)
      case Unrecognized(_) => q.(nonEmpty := true)
  }

  /**
   * What the first loop collects: a designation or a component is recorded
   * exactly when some entry reads as that designation or component,
   * `applyOthers` when some entry is the keyword, and `noneEmptyRequest` when
   * some entry is not blank (an unrecognised entry included).
   */
  lemma {:induction false} ScanCollects(entries: seq<Entry>)
    ensures forall d :: d in Scan(entries).designations <==> DesignationEntry(d) in entries
    ensures forall c :: c in Scan(entries).components <==> ComponentEntry(c) in entries
    ensures Scan(entries).others <==> Others in entries
    ensures Scan(entries).nonEmpty <==> exists e :: e in entries && !e.Blank?
  {
    if entries != [] {
      var init := entries[..|entries| - 1];
      var last := entries[|entries| - 1];
      assert entries == init + [last];
      assert forall e :: e in entries <==> e in init || e == last;
      ScanCollects(init);
    }
  }

  /** One step of the first loop: reading entry `i` extends the scan of the entries before it. */
  lemma ReadingStep(entries: seq<string>, i: nat)
    requires i < |entries|
    ensures Scan(Classified(entries[..i + 1])) ==
      var q := Scan(Classified(entries[..i]));
      match Classify(entries[i])
      case Blank => q
      case Others => q.(others := true, nonEmpty := true)
      case DesignationEntry(d) => q.(designations := q.designations + {d}, nonEmpty := true)
      case ComponentEntry(c) => q.(components := q.components + {c}, nonEmpty := true)
      case Unrecognized(_) => q.(nonEmpty := true)
  {
    assert Classified(entries[..i + 1])[..i] == Classified(entries[..i]);
  }

  /** "Select everything" (no non-blank entry), or an explicit request. */
  datatype Selection =
    | SelectAll
    | Explicit(designations: set<string>, components: set<string>, others: bool)

  /** The entries the reconciler reads: the list when it is known, nothing when it is null or unknown. */
  function Requested(updateList: ListValue): seq<string> {
    if updateList.KnownList? then updateList.elements else []
  }

  /** The selection `update_list` asks for. */
  function SelectionOf(updateList: ListValue): Selection {
    var q := Scan(Classified(Requested(updateList)));
    if q.nonEmpty then Explicit(q.designations, q.components, q.others) else SelectAll
  }

  /** Whether `item` is selected under `sel`. */
  predicate Wanted(sel: Selection, item: UpdateItem) {
    match sel
    case SelectAll => true
    case Explicit(ds, cs, others) =>
      item.designation in ds || item.component in cs || (others && item.component !in AllowedUpdateComponents)
  }

  /** The designations of the items whose selection under `sel` is `want`, in collection order. */
  function Split(sel: Selection, items: seq<UpdateItem>, want: bool): seq<string> {
    if items == [] then []
    else
      var rest := Split(sel, items[..|items| - 1], want);
      if Wanted(sel, items[|items| - 1]) == want then rest + [items[|items| - 1].designation] else rest
  }

  /**
   * `PrepareUpdateLists`: the first loop reads the entries, the second walks
   * the collection and appends each designation to `selected` or, outside
   * select-all mode, to `deselected`.
   */
  method PrepareUpdateLists(updateList: ListValue, collection: UpdateCollection)
    returns (selected: seq<string>, deselected: seq<string>)
    ensures selected == Split(SelectionOf(updateList), collection.items, true)
    ensures deselected == Split(SelectionOf(updateList), collection.items, false)
  {
    var requestedUpdates := if updateList.KnownList? then updateList.elements else [];
    var requestedDesignations: set<string> := {};
    var requestedComponents: set<string> := {};
    var applyOthers := false;
    var applyAll := true;
    var noneEmptyRequest := false;

    for i := 0 to |requestedUpdates|
      invariant Requests(requestedDesignations, requestedComponents, applyOthers, noneEmptyRequest)
             == Scan(Classified(requestedUpdates[..i]))
    {
      var trimmedReq := TrimSpace(requestedUpdates[i]);
      ReadingStep(requestedUpdates, i);
      if trimmedReq == "" {
        continue;
      }
      noneEmptyRequest := true;
      if trimmedReq == OthersKeyword {
        applyOthers := true;
      } else if '/' in trimmedReq {
        requestedDesignations := requestedDesignations + {trimmedReq};
      } else if trimmedReq in AllowedUpdateComponents {
        requestedComponents := requestedComponents + {trimmedReq};
      }
      // Any other entry is only logged as ignored.
    }
    assert requestedUpdates[..|requestedUpdates|] == requestedUpdates;

    if noneEmptyRequest {
      applyAll := false;
    }

    ghost var sel := SelectionOf(updateList);
    var items := collection.items;
    selected := [];
    deselected := [];
    for i := 0 to |items|
      invariant applyAll <==> sel.SelectAll?
      invariant !applyAll ==> sel == Explicit(requestedDesignations, requestedComponents, applyOthers)
      invariant selected == Split(sel, items[..i], true)
      invariant deselected == Split(sel, items[..i], false)
    {
      assert items[..i + 1][..i] == items[..i];
      var designation := items[i].designation;
      var component := items[i].component;

      var isSelected := false;
      if applyAll {
        isSelected := true;
      } else {
        if designation in requestedDesignations {
          isSelected := true;
        }
        if !isSelected {
          if component in requestedComponents {
            isSelected := true;
          }
        }
        if !isSelected && applyOthers {
          if component !in AllowedUpdateComponents {
            isSelected := true;
          }
        }
      }

      if isSelected {
        selected := selected + [designation];
      } else if !applyAll {
        deselected := deselected + [designation];
      }
    }
    assert items[..|items|] == items;
  }

  // ---------------------------------------------------------------------------
  // What an entry's reading means for its trimmed text
  // ---------------------------------------------------------------------------

  /** An entry reads as blank exactly when it is white space only. */
  lemma ClassifyBlank(raw: string)
    ensures Classify(raw).Blank? <==> IsBlank(raw)
  {
    ReadBlank(TrimSpace(raw));
  }

  /** A trimmed entry reads as blank exactly when it is empty. */
  lemma ReadBlank(trimmed: string)
    ensures Read(trimmed).Blank? <==> trimmed == ""
  {
    if trimmed != "" {
      assert !Read(trimmed).Blank?;
    }
  }

  /** A trimmed entry reads as the keyword exactly when it is `Others`. */
  lemma ReadOthers(trimmed: string)
    ensures Read(trimmed).Others? <==> trimmed == OthersKeyword
  {
  }

  /** A trimmed entry asks for designation `d` exactly when it is `d` and contains `/`. */
  lemma ReadDesignation(trimmed: string, d: string)
    ensures Read(trimmed) == DesignationEntry(d) <==> '/' in trimmed && trimmed == d
  {
    assert '/' !in OthersKeyword;
  }

  /**
   * A trimmed entry asks for component `c` exactly when it is `c`, allow-listed,
   * free of `/` and not the keyword `Others`: the keyword is tested first.
   */
  lemma ReadComponent(trimmed: string, c: string)
    ensures Read(trimmed) == ComponentEntry(c) <==>
      trimmed == c && c != OthersKeyword && '/' !in c && c in AllowedUpdateComponents
  {
  }

  /** A reading occurs among the classified entries exactly when some entry reads that way. */
  lemma InClassified(entries: seq<string>, x: Entry)
    ensures x in Classified(entries) <==> exists e :: e in entries && Classify(e) == x
  {
    var es := Classified(entries);
    if x in es {
      var j :| 0 <= j < |es| && es[j] == x;
      assert entries[j] in entries;
    }
    if exists e :: e in entries && Classify(e) == x {
      var e :| e in entries && Classify(e) == x;
      var j :| 0 <= j < |entries| && entries[j] == e;
      assert es[j] == x;
    }
  }

  // ---------------------------------------------------------------------------
  // Select-all mode
  // ---------------------------------------------------------------------------

  /**
   * Select-all mode is on exactly when `update_list` is null or unknown, or
   * every entry is blank after trimming (the empty list included).
   */
  lemma {:induction false} SelectAllIff(updateList: ListValue)
    ensures SelectionOf(updateList).SelectAll? <==>
      !updateList.KnownList? || forall j :: 0 <= j < |updateList.elements| ==> IsBlank(updateList.elements[j])
  {
    var es := Classified(Requested(updateList));
    ScanCollects(es);
    forall j | 0 <= j < |es| ensures es[j].Blank? <==> IsBlank(Requested(updateList)[j]) {
      ClassifyBlank(Requested(updateList)[j]);
    }
    if Scan(es).nonEmpty {
      var e :| e in es && !e.Blank?;
    }
  }

  /** In select-all mode every designation is selected, in collection order, and none is deselected. */
  lemma {:induction false} SelectAllSplit(items: seq<UpdateItem>)
    ensures Split(SelectAll, items, true) == Designations(items)
    ensures Split(SelectAll, items, false) == []
  {
    if items != [] {
      var init := items[..|items| - 1];
      SelectAllSplit(init);
      assert Designations(items) == Designations(init) + [items[|items| - 1].designation];
    }
  }

  /**
   * When `update_list` is null, unknown, or has no non-blank entry,
   * `PrepareUpdateLists` selects every designation in collection order and
   * deselects none.
   */
  lemma NullOrBlankListSelectsAll(updateList: ListValue, items: seq<UpdateItem>)
    requires !updateList.KnownList? || forall j :: 0 <= j < |updateList.elements| ==> IsBlank(updateList.elements[j])
    ensures Split(SelectionOf(updateList), items, true) == Designations(items)
    ensures Split(SelectionOf(updateList), items, false) == []
  {
    SelectAllIff(updateList);
    SelectAllSplit(items);
  }

  // ---------------------------------------------------------------------------
  // The split is an order-preserving partition
  // ---------------------------------------------------------------------------

  /** The collection positions whose selection is `want`, in increasing order. */
  function Positions(sel: Selection, items: seq<UpdateItem>, want: bool): seq<nat> {
    if items == [] then []
    else
      var rest := Positions(sel, items[..|items| - 1], want);
      if Wanted(sel, items[|items| - 1]) == want then rest + [|items| - 1] else rest
  }

  /**
   * Each side of the split lists, in increasing collection position, exactly
   * the items whose selection is `want`: the `m`-th designation is that of the
   * `m`-th such item.
   */
  lemma {:induction false} SplitKeepsOrder(sel: Selection, items: seq<UpdateItem>, want: bool)
    ensures var ps := Positions(sel, items, want); var ds := Split(sel, items, want);
      && |ps| == |ds|
      && (forall m :: 0 <= m < |ps| ==>
            ps[m] < |items| && Wanted(sel, items[ps[m]]) == want && ds[m] == items[ps[m]].designation)
      && (forall m, n :: 0 <= m < n < |ps| ==> ps[m] < ps[n])
      && (forall k :: 0 <= k < |items| && Wanted(sel, items[k]) == want ==> k in ps)
  {
    if items != [] {
      var init := items[..|items| - 1];
      SplitKeepsOrder(sel, init, want);
      var ps0 := Positions(sel, init, want);
      forall m | 0 <= m < |ps0| ensures items[ps0[m]] == init[ps0[m]] { }
    }
  }

  /**
   * Together the two sides hold every designation of the collection once per
   * item: their lengths add up and their multisets add up to the collection's.
   */
  lemma {:induction false} SplitPartitions(sel: Selection, items: seq<UpdateItem>)
    ensures |Split(sel, items, true)| + |Split(sel, items, false)| == |items|
    ensures multiset(Split(sel, items, true)) + multiset(Split(sel, items, false)) == multiset(Designations(items))
  {
    if items != [] {
      var init := items[..|items| - 1];
      SplitPartitions(sel, init);
      assert Designations(items) == Designations(init) + [items[|items| - 1].designation];
    }
  }

  /** With unique designations (the collection's invariant) no designation is on both sides. */
  lemma SplitDisjoint(sel: Selection, items: seq<UpdateItem>)
    requires UniqueDesignations(items)
    ensures forall d :: d in Split(sel, items, true) ==> d !in Split(sel, items, false)
  {
    SplitKeepsOrder(sel, items, true);
    SplitKeepsOrder(sel, items, false);
    var ds, ns := Split(sel, items, true), Split(sel, items, false);
    var ps, qs := Positions(sel, items, true), Positions(sel, items, false);
    forall d | d in ds ensures d !in ns {
      var m :| 0 <= m < |ds| && ds[m] == d;
    }
  }

  // ---------------------------------------------------------------------------
  // Which items an explicit list selects
  // ---------------------------------------------------------------------------

  /**
   * Outside select-all mode an item is selected exactly when its designation
   * is a trimmed entry containing `/`, or its component is a trimmed entry
   * that is allow-listed (and not the keyword), or `Others` was asked for and
   * its component is not allow-listed.
   */
  lemma ExplicitSelectionIff(updateList: ListValue, item: UpdateItem)
    requires SelectionOf(updateList).Explicit?
    ensures Wanted(SelectionOf(updateList), item) <==>
      || (exists e :: e in Requested(updateList) && '/' in TrimSpace(e) && TrimSpace(e) == item.designation)
      || (exists e :: e in Requested(updateList) && TrimSpace(e) == item.component && item.component != OthersKeyword
                      && '/' !in item.component && item.component in AllowedUpdateComponents)
      || ((exists e :: e in Requested(updateList) && TrimSpace(e) == OthersKeyword)
          && item.component !in AllowedUpdateComponents)
  {
    var entries := Requested(updateList);
    var es := Classified(entries);
    ScanCollects(es);
    InClassified(entries, DesignationEntry(item.designation));
    InClassified(entries, ComponentEntry(item.component));
    InClassified(entries, Others);
    forall e | e in entries
      ensures Classify(e) == DesignationEntry(item.designation) <==>
                '/' in TrimSpace(e) && TrimSpace(e) == item.designation
      ensures Classify(e) == ComponentEntry(item.component) <==>
                TrimSpace(e) == item.component && item.component != OthersKeyword
                && '/' !in item.component && item.component in AllowedUpdateComponents
      ensures Classify(e) == Others <==> TrimSpace(e) == OthersKeyword
    {
      ReadDesignation(TrimSpace(e), item.designation);
      ReadComponent(TrimSpace(e), item.component);
      ReadOthers(TrimSpace(e));
    }
  }

  /**
   * An item whose component is literally `Others` is selected by an explicit
   * list only through its own designation: the keyword does not sweep it up
   * (the component is allow-listed) and no entry reads as that component.
   */
  lemma ComponentNamedOthersOnlyByDesignation(updateList: ListValue, item: UpdateItem)
    requires SelectionOf(updateList).Explicit? && item.component == OthersKeyword
    ensures Wanted(SelectionOf(updateList), item) <==> item.designation in SelectionOf(updateList).designations
  {
    var entries := Requested(updateList);
    ScanCollects(Classified(entries));
    InClassified(entries, ComponentEntry(OthersKeyword));
    forall e | e in entries ensures Classify(e) != ComponentEntry(OthersKeyword) {
      ReadComponent(TrimSpace(e), OthersKeyword);
    }
  }

  /** Classifying one more entry appends its reading. */
  lemma ClassifiedAppend(entries: seq<string>, x: string)
    ensures Classified(entries + [x]) == Classified(entries) + [Classify(x)]
  {
  }

  /**
   * An unrecognised entry selects nothing and raises no error, yet it ends
   * select-all mode: appended to a list without non-blank entries it leaves
   * an explicit request for nothing, and otherwise it changes nothing.
   */
  lemma UnrecognizedEntryOnlyEndsSelectAll(entries: seq<string>, x: string)
    requires Classify(x).Unrecognized?
    ensures SelectionOf(KnownList(entries + [x])) ==
      if SelectionOf(KnownList(entries)).SelectAll? then Explicit({}, {}, false) else SelectionOf(KnownList(entries))
  {
    ClassifiedAppend(entries, x);
    UnrecognizedReading(Classified(entries), Classify(x));
  }

  /** The scan of readings: an unrecognised reading only sets `noneEmptyRequest`. */
  lemma UnrecognizedReading(es: seq<Entry>, u: Entry)
    requires u.Unrecognized?
    ensures Scan(es + [u]) == Scan(es).(nonEmpty := true)
    ensures !Scan(es).nonEmpty ==> Scan(es) == Requests({}, {}, false, false)
  {
    assert (es + [u])[..|es|] == es;
    ScanCollects(es);
    if !Scan(es).nonEmpty {
      assert forall d :: DesignationEntry(d) !in es;
      assert forall c :: ComponentEntry(c) !in es;
    }
  }

  /** An explicit request for nothing deselects every designation, in collection order. */
  lemma {:induction false} NothingRequestedDeselectsAll(items: seq<UpdateItem>)
    ensures Split(Explicit({}, {}, false), items, true) == []
    ensures Split(Explicit({}, {}, false), items, false) == Designations(items)
  {
    if items != [] {
      var init := items[..|items| - 1];
      NothingRequestedDeselectsAll(init);
      assert Designations(items) == Designations(init) + [items[|items| - 1].designation];
    }
  }

  // ---------------------------------------------------------------------------
  // A list of one entry
  // ---------------------------------------------------------------------------

  /** Scanning a single reading. */
  lemma ScanSingle(e: Entry)
    ensures Scan([e]) == Requests(
      if e.DesignationEntry? then {e.designation} else {},
      if e.ComponentEntry? then {e.component} else {},
      e.Others?, !e.Blank?)
  {
    assert [e][..0] == [];
  }

  /**
   * A list of one entry asks for exactly what that entry reads as: nothing
   * special when blank, every non-allow-listed component for the keyword, one
   * designation, one component, or an explicit request for nothing.
   */
  lemma SingleEntrySelection(raw: string)
    ensures SelectionOf(KnownList([raw])) ==
      match Classify(raw)
      case Blank => SelectAll
      case Others => Explicit({}, {}, true)
      case DesignationEntry(d) => Explicit({d}, {}, false)
      case ComponentEntry(c) => Explicit({}, {c}, false)
      case Unrecognized(_) => Explicit({}, {}, false)
  {
    assert Classified([raw]) == [Classify(raw)];
    ScanSingle(Classify(raw));
  }
}
