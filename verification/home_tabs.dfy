/**
 * `checkForNewTabs`: tabs introduced in a newer release (the `defaultTabs`
 * list) that the account's stored tab layout does not know yet are appended,
 * disabled but installed.
 */
module HomeTabs {
  import opened Wrappers

  /** A stored tab of the account's personalization. */
  datatype Tab = Tab(name: string, enabled: bool, installed: bool)

  /** An entry of `defaultTabs`; only its `tab` name is read here. */
  datatype DefaultTab = DefaultTab(tab: string)

  /** The account's personalization: optional stored tabs, and every other setting (`rest`). */
  datatype Personalization<X> = Personalization(tabs: Option<seq<Tab>>, rest: X)

  /** `storedTabs.some(storedTab => storedTab.name === name)`: scans until a tab has that name. */
  function HasName(tabs: seq<Tab>, name: string): (b: bool)
    ensures b <==> exists i :: 0 <= i < |tabs| && tabs[i].name == name
  {
    tabs != [] && (tabs[0].name == name || HasName(tabs[1..], name))
  }

  /** `defaultTabs.filter(d => !storedTabs.some(...))`: the defaults missing by name, in their order. */
  function MissingDefaults(stored: seq<Tab>, defaults: seq<DefaultTab>): (r: seq<DefaultTab>)
    ensures |r| <= |defaults|
    ensures forall d :: d in r <==> d in defaults && !HasName(stored, d.tab)
  {
    if defaults == [] then []
    else if HasName(stored, defaults[0].tab) then MissingDefaults(stored, defaults[1..])
    else [defaults[0]] + MissingDefaults(stored, defaults[1..])
  }

  /**
   * The filter keeps order: the missing defaults of a concatenation are those
   * of the first part followed by those of the second.
   */
  lemma {:induction false} MissingDefaultsKeepsOrder(stored: seq<Tab>, front: seq<DefaultTab>, back: seq<DefaultTab>)
    ensures MissingDefaults(stored, front + back)
         == MissingDefaults(stored, front) + MissingDefaults(stored, back)
  {
    if front == [] {
      assert front + back == back;
    } else {
      var f, rest := front[0], front[1..];
      var whole := front + back;
      assert whole[0] == f && whole[1..] == rest + back;
      MissingDefaultsKeepsOrder(stored, rest, back);
      if !HasName(stored, f.tab) {
        assert [f] + MissingDefaults(stored, rest) + MissingDefaults(stored, back)
            == [f] + (MissingDefaults(stored, rest) + MissingDefaults(stored, back));
      }
    }
  }

  /** Duplicates are kept: each missing default occurs as often as in `defaults`, the others not at all. */
  lemma {:induction false} MissingDefaultsCounts(stored: seq<Tab>, defaults: seq<DefaultTab>, d: DefaultTab)
    ensures multiset(MissingDefaults(stored, defaults))[d]
         == if HasName(stored, d.tab) then 0 else multiset(defaults)[d]
  {
    if defaults != [] {
      MissingDefaultsCounts(stored, defaults[1..], d);
      assert defaults == [defaults[0]] + defaults[1..];
    }
  }

  /** The entry a missing default tab becomes. */
  function NewTab(d: DefaultTab): Tab {
    Tab(d.tab, false, true)
  }

  /** The stored tabs followed by one new entry per missing default, in `defaultTabs` order. */
  function MergedTabs(stored: seq<Tab>, defaults: seq<DefaultTab>): (r: seq<Tab>)
    ensures |r| == |stored| + |MissingDefaults(stored, defaults)|
    ensures r[..|stored|] == stored
    ensures forall i :: 0 <= i < |MissingDefaults(stored, defaults)| ==>
      r[|stored| + i] == Tab(MissingDefaults(stored, defaults)[i].tab, false, true)
  {
    var missing := MissingDefaults(stored, defaults);
    stored + seq(|missing|, i requires 0 <= i < |missing| => NewTab(missing[i]))
  }

  /**
   * What `checkForNewTabs` writes through `mutateProperty("personalization", …)`:
   * nothing (`None`) when no default tab is missing, otherwise the
   * personalization with its tabs replaced by the merged list.
   */
  function CheckForNewTabs<X>(p: Personalization<X>, defaults: seq<DefaultTab>): (w: Option<Personalization<X>>)
    ensures w.None? <==> forall d :: d in defaults ==> HasName(p.tabs.GetOr([]), d.tab)
    ensures w.Some? ==> w == Some(Personalization(Some(MergedTabs(p.tabs.GetOr([]), defaults)), p.rest))
  {
    var storedTabs := p.tabs.GetOr([]);
    var newTabs := MissingDefaults(storedTabs, defaults);
    if |newTabs| > 0 then
      assert newTabs[0] in newTabs;
      Some(Personalization(Some(MergedTabs(storedTabs, defaults)), p.rest))
    else
      None
  }

  /** After the merge every default tab's name is present. */
  lemma {:induction false} MergedTabsCoverDefaults(stored: seq<Tab>, defaults: seq<DefaultTab>)
    ensures forall d :: d in defaults ==> HasName(MergedTabs(stored, defaults), d.tab)
  {
    var r := MergedTabs(stored, defaults);
    var missing := MissingDefaults(stored, defaults);
    forall d | d in defaults ensures HasName(r, d.tab) {
      if HasName(stored, d.tab) {
        var i :| 0 <= i < |stored| && stored[i].name == d.tab;
        assert r[i] == r[..|stored|][i];
      } else {
        assert d in missing;
        var k :| 0 <= k < |missing| && missing[k] == d;
        assert r[|stored| + k].name == d.tab;
      }
    }
  }

  /** Names the merge adds come from `defaultTabs` and were missing before. */
  lemma MergedTabsAddOnlyMissing(stored: seq<Tab>, defaults: seq<DefaultTab>)
    ensures forall i :: |stored| <= i < |MergedTabs(stored, defaults)| ==>
      exists d :: d in defaults && !HasName(stored, d.tab) && MergedTabs(stored, defaults)[i] == NewTab(d)
  {
    var missing := MissingDefaults(stored, defaults);
    var r := MergedTabs(stored, defaults);
    forall i | |stored| <= i < |r|
      ensures exists d :: d in defaults && !HasName(stored, d.tab) && r[i] == NewTab(d)
    {
      var d := missing[i - |stored|];
      assert d in missing;
    }
  }

  /** A second merge adds nothing: the merged list is a fixed point, and nothing would be written. */
  lemma MergeIdempotent<X>(p: Personalization<X>, defaults: seq<DefaultTab>)
    requires CheckForNewTabs(p, defaults).Some?
    ensures var merged := CheckForNewTabs(p, defaults).value;
      && CheckForNewTabs(merged, defaults).None?
      && MergedTabs(merged.tabs.value, defaults) == merged.tabs.value
  {
    var merged := CheckForNewTabs(p, defaults).value;
    var tabs := merged.tabs.value;
    MergedTabsCoverDefaults(p.tabs.GetOr([]), defaults);
    NoneMissing(tabs, defaults);
    assert MergedTabs(tabs, defaults) == tabs[..|tabs|];
  }

  lemma NoneMissing(stored: seq<Tab>, defaults: seq<DefaultTab>)
    requires forall d :: d in defaults ==> HasName(stored, d.tab)
    ensures MissingDefaults(stored, defaults) == []
  {
    if MissingDefaults(stored, defaults) != [] {
      assert MissingDefaults(stored, defaults)[0] in MissingDefaults(stored, defaults);
    }
  }
}
