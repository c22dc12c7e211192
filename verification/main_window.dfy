/** The part of `MainWindowView` that decides which packages are listed:
    the sidebar items and `PackageListView.displayedPackages`. */
module MainWindow {
  import opened Wrappers
  import opened Models
  import opened Manager

  /** `SidebarItem`. */
  datatype SidebarItem = Installed | Outdated | Taps | Formulae | Casks

  /** The item's raw value, which is also its identifier and its label. */
  function RawValue(item: SidebarItem): string {
    match item
    case Installed => "Installed"
    case Outdated => "Outdated"
    case Taps => "Taps"
    case Formulae => "Formulae"
    case Casks => "Casks"
  }

  /** `SidebarItem.allCases`, in declaration order. */
  const AllCases: seq<SidebarItem> := [Installed, Outdated, Taps, Formulae, Casks]

  /** `filter { $0.type == kind }`: only packages of `kind` are kept. */
  function OfKind(ps: seq<Package>, kind: PackageType): (r: seq<Package>)
    ensures |r| <= |ps|
    ensures forall i :: 0 <= i < |r| ==> r[i].kind == kind
  {
    if |ps| == 0 then []
    else if ps[0].kind == kind then [ps[0]] + OfKind(ps[1..], kind)
    else OfKind(ps[1..], kind)
  }

  /** `displayedPackages`: the search results whenever there is search
      text, otherwise the list the selected sidebar item stands for. */
  function DisplayedPackages(s: ManagerState, selected: Option<SidebarItem>, searchText: string): (r: seq<Package>)
    ensures searchText != "" ==> r == s.searchResults
    ensures searchText == "" && selected == Some(Installed) ==> r == s.installedPackages
    ensures searchText == "" && selected == Some(Outdated) ==> r == s.outdatedPackages
    ensures searchText == "" && selected == Some(Formulae) ==> r == OfKind(s.installedPackages, FormulaKind)
    ensures searchText == "" && selected == Some(Casks) ==> r == OfKind(s.installedPackages, CaskKind)
    ensures searchText == "" && (selected.None? || selected == Some(Taps)) ==> r == []
  {
    if searchText != "" then s.searchResults
    else match selected
      case Some(Installed) => s.installedPackages
      case Some(Outdated) => s.outdatedPackages
      case Some(Formulae) => OfKind(s.installedPackages, FormulaKind)
      case Some(Casks) => OfKind(s.installedPackages, CaskKind)
      case _ => []
  }
}

/** Properties of the package list selector. */
module MainWindowProperties {
  import opened Wrappers
  import opened Models
  import opened Manager
  import opened MainWindow

  /** `a` is `b` with some elements left out, the rest in order. */
  predicate Subsequence<T(==)>(a: seq<T>, b: seq<T>)
    decreases |b|
  {
    if |a| == 0 then true
    else if |b| == 0 then false
    else if a[0] == b[0] then Subsequence(a[1..], b[1..])
    else Subsequence(a, b[1..])
  }

  /** The items' raw values are pairwise distinct, so each identifies its item. */
  lemma RawValuesDistinct(a: SidebarItem, b: SidebarItem)
    requires RawValue(a) == RawValue(b)
    ensures a == b
  {
    var ra, rb := RawValue(a), RawValue(b);
    assert |ra| == |rb| && ra[0] == rb[0];
  }

  /** `allCases` lists every item exactly once. */
  lemma AllCasesComplete(item: SidebarItem)
    ensures item in AllCases
    ensures multiset(AllCases)[item] == 1
  {
  }

  /** Filtering keeps the order of the packages it keeps. */
  lemma {:induction false} OfKindIsSubsequence(ps: seq<Package>, kind: PackageType)
    ensures Subsequence(OfKind(ps, kind), ps)
  {
    if |ps| > 0 {
      OfKindIsSubsequence(ps[1..], kind);
      if ps[0].kind != kind {
        var r := OfKind(ps, kind);
        if |r| > 0 {
          OfKindMembers(ps[1..], kind, r[0]);
        }
      }
    }
  }

  /** Filtering keeps every copy of a package of the kind and no other. */
  lemma {:induction false} OfKindCounts(ps: seq<Package>, kind: PackageType, p: Package)
    ensures multiset(OfKind(ps, kind))[p] == if p.kind == kind then multiset(ps)[p] else 0
  {
    if |ps| > 0 {
      OfKindCounts(ps[1..], kind, p);
      assert ps == [ps[0]] + ps[1..];
    }
  }

  /** The filter keeps exactly the packages of its kind. */
  lemma OfKindMembers(ps: seq<Package>, kind: PackageType, p: Package)
    ensures p in OfKind(ps, kind) <==> p in ps && p.kind == kind
  {
    OfKindCounts(ps, kind, p);
  }

  /** The Formulae and Casks views together hold exactly the installed list. */
  lemma OfKindPartition(ps: seq<Package>)
    ensures multiset(OfKind(ps, FormulaKind)) + multiset(OfKind(ps, CaskKind)) == multiset(ps)
    ensures |OfKind(ps, FormulaKind)| + |OfKind(ps, CaskKind)| == |ps|
  {
    forall p ensures (multiset(OfKind(ps, FormulaKind)) + multiset(OfKind(ps, CaskKind)))[p] == multiset(ps)[p] {
      OfKindCounts(ps, FormulaKind, p);
      OfKindCounts(ps, CaskKind, p);
    }
    assert multiset(OfKind(ps, FormulaKind)) + multiset(OfKind(ps, CaskKind)) == multiset(ps);
    assert |multiset(OfKind(ps, FormulaKind)) + multiset(OfKind(ps, CaskKind))| == |multiset(ps)|;
  }

  /** Filtering distributes over concatenation. */
  lemma {:induction false} OfKindAppend(a: seq<Package>, b: seq<Package>, kind: PackageType)
    ensures OfKind(a + b, kind) == OfKind(a, kind) + OfKind(b, kind)
  {
    if |a| > 0 {
      OfKindAppend(a[1..], b, kind);
      assert (a + b)[0] == a[0] && (a + b)[1..] == a[1..] + b;
      if a[0].kind == kind {
        assert OfKind(a + b, kind) == [a[0]] + OfKind(a[1..] + b, kind);
        assert OfKind(a, kind) == [a[0]] + OfKind(a[1..], kind);
      } else {
        assert OfKind(a + b, kind) == OfKind(a[1..] + b, kind);
        assert OfKind(a, kind) == OfKind(a[1..], kind);
      }
    } else {
      assert a + b == b;
    }
  }

  /** Mapped formulae are all kept by the Formulae filter and all dropped by the Casks one. */
  lemma {:induction false} FormulaeFilter(fs: seq<Formula>)
    ensures OfKind(MapFormulae(fs), FormulaKind) == MapFormulae(fs)
    ensures OfKind(MapFormulae(fs), CaskKind) == []
  {
    if |fs| > 0 {
      FormulaeFilter(fs[1..]);
      assert MapFormulae(fs)[1..] == MapFormulae(fs[1..]);
    }
  }

  /** Mapped casks are all kept by the Casks filter and all dropped by the Formulae one. */
  lemma {:induction false} CasksFilter(cs: seq<Cask>)
    ensures OfKind(MapCasks(cs), CaskKind) == MapCasks(cs)
    ensures OfKind(MapCasks(cs), FormulaKind) == []
  {
    if |cs| > 0 {
      CasksFilter(cs[1..]);
      assert MapCasks(cs)[1..] == MapCasks(cs[1..]);
    }
  }

  /** When the installed list was published from a response, the Formulae
      view shows exactly its formulae and the Casks view exactly its casks. */
  lemma ViewsOfPublishedList(s: ManagerState, resp: PackageResponse)
    requires s.installedPackages == Packages(resp)
    ensures DisplayedPackages(s, Some(Formulae), "") == MapFormulae(Section(resp.formulae))
    ensures DisplayedPackages(s, Some(Casks), "") == MapCasks(Section(resp.casks))
  {
    OfKindAppend(MapFormulae(Section(resp.formulae)), MapCasks(Section(resp.casks)), FormulaKind);
    OfKindAppend(MapFormulae(Section(resp.formulae)), MapCasks(Section(resp.casks)), CaskKind);
    FormulaeFilter(Section(resp.formulae));
    CasksFilter(Section(resp.casks));
  }

  /** Search text overrides the sidebar: every selection shows the same list. */
  lemma SearchOverridesSidebar(s: ManagerState, a: Option<SidebarItem>, b: Option<SidebarItem>, searchText: string)
    requires searchText != ""
    ensures DisplayedPackages(s, a, searchText) == DisplayedPackages(s, b, searchText)
  {
  }
}
