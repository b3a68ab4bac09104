/**
 * The parameter catalogue of the Digitakt controller: a table from controller
 * number (CC) to the parameter's display name and category, filled once from
 * eight literal lists and then only read.
 */
module MidiMap {
  import opened Wrappers
  import Decimal

  /** One catalogue entry. */
  datatype Param = Param(name: string, cc: Cc, category: string)

  /** One of the literal lists the table is filled from, with the category its entries get. */
  datatype Group = Group(category: string, entries: seq<(Cc, string)>)

  /** A controller number, held in the source as a `u8`. */
  type Cc = n: int | 0 <= n < 256

  type Table = map<Cc, Param>

  function TrackParams(): seq<(Cc, string)> {
    [(93, "Solo"), (94, "Global Mute"), (110, "Pattern Mute"), (95, "Track Level")]
  }

  function TrigParams(): seq<(Cc, string)> {
    [(3, "Trig Note"), (4, "Trig Velocity"), (5, "Trig Length"), (13, "Filter Trig"), (14, "LFO Trig")]
  }

  function SourceParams(): seq<(Cc, string)> {
    [(16, "Source Tune"), (17, "Source Play Mode"), (18, "Source Bit Reduction"),
     (19, "Source Sample Slot"), (20, "Source Start"), (21, "Source Length"),
     (22, "Source Loop Position"), (23, "Source Sample Level")]
  }

  function FilterParams(): seq<(Cc, string)> {
    [(74, "Filter Frequency"), (75, "Resonance"), (76, "Filter Type"),
     (70, "Filter Attack Time"), (71, "Filter Decay Time"), (72, "Filter Sustain Level"),
     (73, "Filter Release Time"), (77, "Filter Env Depth")]
  }

  function AmpParams(): seq<(Cc, string)> {
    [(78, "Amp Attack Time"), (79, "Amp Hold Time"), (80, "Amp Decay Time"),
     (81, "Amp Overdrive"), (82, "Amp Delay Send"), (83, "Amp Reverb Send"),
     (10, "Amp Pan"), (7, "Amp Volume")]
  }

  function LfoParams(): seq<(Cc, string)> {
    [(102, "LFO Speed"), (103, "LFO Multiplier"), (104, "LFO Fade In/Out"),
     (105, "LFO Destination"), (106, "LFO Waveform"), (107, "LFO Start Phase"),
     (108, "LFO Trig Mode"), (109, "LFO Depth")]
  }

  function FxDelayParams(): seq<(Cc, string)> {
    [(85, "FX Delay Time"), (86, "FX Pingpong"), (87, "FX Stereo Width"),
     (88, "FX Feedback"), (89, "FX Highpass Filter"), (90, "FX Lowpass Filter"),
     (91, "FX Reverb Send"), (92, "FX Mix Volume")]
  }

  function FxReverbParams(): seq<(Cc, string)> {
    [(24, "FX Reverb Predelay"), (25, "FX Reverb Decay Time"), (2, "FX Reverb Shelving Freq"),
     (27, "FX Reverb Shelving Gain"), (28, "FX Reverb Highpass Filter"),
     (29, "FX Reverb Lowpass Filter"), (31, "FX Reverb Mix Volume")]
  }

  /** The eight lists in the order the table is filled from them. */
  function Groups(): seq<Group> {
    [Group("Track", TrackParams()), Group("Trig", TrigParams()),
     Group("Source", SourceParams()), Group("Filter", FilterParams()),
     Group("Amp", AmpParams()), Group("LFO", LfoParams()),
     Group("FX Delay", FxDelayParams()), Group("FX Reverb", FxReverbParams())]
  }

  function Categories(): set<string> {
    {"Track", "Trig", "Source", "Filter", "Amp", "LFO", "FX Delay", "FX Reverb"}
  }

  // ---------------------------------------------------------------------------
  // Filling the table: each entry is inserted in list order, a later insert of
  // the same key replacing an earlier one, as `HashMap::insert` does.

  /** The table after inserting `es`, in order, into `m` under `category`. */
  function InsertEntries(m: Table, category: string, es: seq<(Cc, string)>): Table
    decreases |es|
  {
    if es == [] then m
    else
      var e := es[|es| - 1];
      InsertEntries(m, category, es[..|es| - 1])[e.0 := Param(e.1, e.0, category)]
  }

  /** The table after inserting every list of `gs`, in order, into `m`. */
  function InsertGroups(m: Table, gs: seq<Group>): Table
    decreases |gs|
  {
    if gs == [] then m
    else
      var g := gs[|gs| - 1];
      InsertEntries(InsertGroups(m, gs[..|gs| - 1]), g.category, g.entries)
  }

  /** The table `MidiMap::new` builds. */
  function FullTable(): Table {
    InsertGroups(map[], Groups())
  }

  function CcSet(es: seq<(Cc, string)>): set<Cc> {
    set e | e in es :: e.0
  }

  /** The keys the lists of `gs` insert. */
  function GroupsCcs(gs: seq<Group>): set<Cc>
    decreases |gs|
  {
    if gs == [] then {} else GroupsCcs(gs[..|gs| - 1]) + CcSet(gs[|gs| - 1].entries)
  }

  /** True when `cc` is among the literal keys of the catalogue. */
  predicate Listed(cc: Cc) {
    exists g, i :: 0 <= g < |Groups()| && 0 <= i < |Groups()[g].entries| && Groups()[g].entries[i].0 == cc
  }

  /** No key occurs twice in one list. */
  predicate DistinctCcs(es: seq<(Cc, string)>) {
    forall i, j :: 0 <= i < j < |es| ==> es[i].0 != es[j].0
  }

  /** No key of `a` occurs in `b`. */
  predicate Apart(a: seq<(Cc, string)>, b: seq<(Cc, string)>) {
    forall i, j :: 0 <= i < |a| && 0 <= j < |b| ==> a[i].0 != b[j].0
  }

  /** No key occurs twice anywhere in `gs`: within a list or across two lists. */
  predicate NoRepeatedCc(gs: seq<Group>) {
    && (forall g :: 0 <= g < |gs| ==> DistinctCcs(gs[g].entries))
    && (forall g, h :: 0 <= g < h < |gs| ==> Apart(gs[g].entries, gs[h].entries))
  }

  /** Every key of `m` maps to the entry whose `cc` field is that key. */
  predicate KeyedByCc(m: Table) {
    forall k :: k in m ==> m[k].cc == k
  }

  // ---------------------------------------------------------------------------
  // What a fill does, for any lists.

  lemma {:induction false} InsertEntriesKeys(m: Table, category: string, es: seq<(Cc, string)>)
    ensures InsertEntries(m, category, es).Keys == m.Keys + CcSet(es)
    decreases |es|
  {
    if es != [] {
      var init := es[..|es| - 1];
      InsertEntriesKeys(m, category, init);
      assert es == init + [es[|es| - 1]];
      assert CcSet(es) == CcSet(init) + {es[|es| - 1].0};
    }
  }

  /** A key that `es` does not mention keeps the entry it had. */
  lemma {:induction false} InsertEntriesElsewhere(m: Table, category: string, es: seq<(Cc, string)>, k: Cc)
    requires k in m && k !in CcSet(es)
    ensures k in InsertEntries(m, category, es) && InsertEntries(m, category, es)[k] == m[k]
    decreases |es|
  {
    if es != [] {
      var init := es[..|es| - 1];
      assert es[|es| - 1] in es;
      assert forall e :: e in init ==> e in es;
      InsertEntriesElsewhere(m, category, init, k);
    }
  }

  /** With no repeated key in `es`, every entry of `es` lands in the table unchanged. */
  lemma {:induction false} InsertEntriesStores(m: Table, category: string, es: seq<(Cc, string)>, i: nat)
    requires DistinctCcs(es) && i < |es|
    ensures es[i].0 in InsertEntries(m, category, es)
    ensures InsertEntries(m, category, es)[es[i].0] == Param(es[i].1, es[i].0, category)
    decreases |es|
  {
    if i < |es| - 1 {
      var init := es[..|es| - 1];
      assert init[i] == es[i];
      assert es[i].0 != es[|es| - 1].0;
      InsertEntriesStores(m, category, init, i);
    }
  }

  lemma {:induction false} InsertEntriesKeyed(m: Table, category: string, es: seq<(Cc, string)>)
    requires KeyedByCc(m)
    ensures KeyedByCc(InsertEntries(m, category, es))
    decreases |es|
  {
    if es != [] {
      var e := es[|es| - 1];
      var before := InsertEntries(m, category, es[..|es| - 1]);
      InsertEntriesKeyed(m, category, es[..|es| - 1]);
      assert InsertEntries(m, category, es) == before[e.0 := Param(e.1, e.0, category)];
    }
  }

  /** Entries keep the categories they had, and new ones get `category`. */
  lemma {:induction false} InsertEntriesCategories(m: Table, category: string, es: seq<(Cc, string)>, cats: set<string>)
    requires category in cats
    requires forall k :: k in m ==> m[k].category in cats
    ensures forall k :: k in InsertEntries(m, category, es) ==> InsertEntries(m, category, es)[k].category in cats
    decreases |es|
  {
    if es != [] {
      var e := es[|es| - 1];
      var before := InsertEntries(m, category, es[..|es| - 1]);
      InsertEntriesCategories(m, category, es[..|es| - 1], cats);
      assert InsertEntries(m, category, es) == before[e.0 := Param(e.1, e.0, category)];
    }
  }

  lemma {:induction false} InsertGroupsKeys(m: Table, gs: seq<Group>)
    ensures InsertGroups(m, gs).Keys == m.Keys + GroupsCcs(gs)
    decreases |gs|
  {
    if gs != [] {
      var g := gs[|gs| - 1];
      InsertGroupsKeys(m, gs[..|gs| - 1]);
      InsertEntriesKeys(InsertGroups(m, gs[..|gs| - 1]), g.category, g.entries);
    }
  }

  /** `GroupsCcs` is exactly the set of keys some list of `gs` mentions. */
  lemma {:induction false} GroupsCcsMembers(gs: seq<Group>, k: Cc)
    ensures k in GroupsCcs(gs) <==>
      exists g, i :: 0 <= g < |gs| && 0 <= i < |gs[g].entries| && gs[g].entries[i].0 == k
    decreases |gs|
  {
    if gs != [] {
      var init := gs[..|gs| - 1];
      var last := gs[|gs| - 1];
      GroupsCcsMembers(init, k);
      if k in GroupsCcs(gs) {
        if k in GroupsCcs(init) {
          var g, i :| 0 <= g < |init| && 0 <= i < |init[g].entries| && init[g].entries[i].0 == k;
          assert gs[g] == init[g];
        } else {
          var e :| e in last.entries && e.0 == k;
          var i :| 0 <= i < |last.entries| && last.entries[i] == e;
          assert gs[|gs| - 1].entries[i].0 == k;
        }
      } else {
        forall g, i | 0 <= g < |gs| && 0 <= i < |gs[g].entries|
          ensures gs[g].entries[i].0 != k
        {
          if g < |gs| - 1 {
            assert init[g] == gs[g];
          } else {
            assert gs[g].entries[i] in last.entries;
          }
        }
      }
    }
  }

  lemma {:induction false} InsertGroupsKeyed(m: Table, gs: seq<Group>)
    requires KeyedByCc(m)
    ensures KeyedByCc(InsertGroups(m, gs))
    decreases |gs|
  {
    if gs != [] {
      var g := gs[|gs| - 1];
      InsertGroupsKeyed(m, gs[..|gs| - 1]);
      InsertEntriesKeyed(InsertGroups(m, gs[..|gs| - 1]), g.category, g.entries);
    }
  }

  lemma {:induction false} InsertGroupsCategories(m: Table, gs: seq<Group>, cats: set<string>)
    requires forall g :: 0 <= g < |gs| ==> gs[g].category in cats
    requires forall k :: k in m ==> m[k].category in cats
    ensures forall k :: k in InsertGroups(m, gs) ==> InsertGroups(m, gs)[k].category in cats
    decreases |gs|
  {
    if gs != [] {
      var g := gs[|gs| - 1];
      InsertGroupsCategories(m, gs[..|gs| - 1], cats);
      InsertEntriesCategories(InsertGroups(m, gs[..|gs| - 1]), g.category, g.entries, cats);
    }
  }

  /** With no repeated key anywhere, no insert overwrites another: every entry survives the fill. */
  lemma {:induction false} InsertGroupsStores(gs: seq<Group>, g: nat, i: nat)
    requires NoRepeatedCc(gs) && g < |gs| && i < |gs[g].entries|
    ensures gs[g].entries[i].0 in InsertGroups(map[], gs)
    ensures InsertGroups(map[], gs)[gs[g].entries[i].0] == Param(gs[g].entries[i].1, gs[g].entries[i].0, gs[g].category)
    decreases |gs|
  {
    var init := gs[..|gs| - 1];
    var last := gs[|gs| - 1];
    var e := gs[g].entries[i];
    if g == |gs| - 1 {
      InsertEntriesStores(InsertGroups(map[], init), last.category, last.entries, i);
    } else {
      assert init[g] == gs[g];
      assert NoRepeatedCc(init);
      InsertGroupsStores(init, g, i);
      assert Apart(gs[g].entries, last.entries);
      ApartKeys(gs[g].entries, last.entries);
      assert e.0 in CcSet(gs[g].entries);
      InsertEntriesElsewhere(InsertGroups(map[], init), last.category, last.entries, e.0);
    }
  }

  lemma ApartKeys(a: seq<(Cc, string)>, b: seq<(Cc, string)>)
    requires Apart(a, b)
    ensures CcSet(a) !! CcSet(b)
  {
  }

  /** A list with no repeated key has as many keys as entries. */
  lemma {:induction false} DistinctCcsCard(es: seq<(Cc, string)>)
    requires DistinctCcs(es)
    ensures |CcSet(es)| == |es|
    decreases |es|
  {
    if es != [] {
      var init := es[..|es| - 1];
      var last := es[|es| - 1];
      DistinctCcsCard(init);
      assert es == init + [last];
      assert CcSet(es) == CcSet(init) + {last.0};
    }
  }

  function TotalEntries(gs: seq<Group>): nat
    decreases |gs|
  {
    if gs == [] then 0 else TotalEntries(gs[..|gs| - 1]) + |gs[|gs| - 1].entries|
  }

  /** With no repeated key anywhere, the lists insert as many keys as they have entries. */
  lemma {:induction false} GroupsCcsCard(gs: seq<Group>)
    requires NoRepeatedCc(gs)
    ensures |GroupsCcs(gs)| == TotalEntries(gs)
    decreases |gs|
  {
    if gs != [] {
      var init := gs[..|gs| - 1];
      var last := gs[|gs| - 1];
      assert NoRepeatedCc(init) by {
        forall g | 0 <= g < |init| ensures init[g] == gs[g] { }
      }
      GroupsCcsCard(init);
      DistinctCcsCard(last.entries);
      assert GroupsCcs(init) !! CcSet(last.entries) by {
        forall k | k in GroupsCcs(init) ensures k !in CcSet(last.entries) {
          GroupsCcsMembers(init, k);
          var g, i :| 0 <= g < |init| && 0 <= i < |init[g].entries| && init[g].entries[i].0 == k;
          assert init[g] == gs[g];
          assert Apart(gs[g].entries, last.entries);
          ApartKeys(gs[g].entries, last.entries);
          assert k in CcSet(gs[g].entries);
        }
      }
    }
  }

  // ---------------------------------------------------------------------------
  // The catalogue's own lists.

  lemma DistinctWithinLists()
    ensures forall g :: 0 <= g < |Groups()| ==> DistinctCcs(Groups()[g].entries)
  {
    DistinctFirstLists();
    DistinctLastLists();
  }

  lemma DistinctFirstLists()
    ensures DistinctCcs(TrackParams()) && DistinctCcs(TrigParams())
    ensures DistinctCcs(SourceParams()) && DistinctCcs(FilterParams())
  {
  }

  lemma DistinctLastLists()
    ensures DistinctCcs(AmpParams()) && DistinctCcs(LfoParams())
    ensures DistinctCcs(FxDelayParams()) && DistinctCcs(FxReverbParams())
  {
  }

  lemma ApartTrack()
    ensures Apart(TrackParams(), TrigParams()) && Apart(TrackParams(), SourceParams())
    ensures Apart(TrackParams(), FilterParams()) && Apart(TrackParams(), AmpParams())
    ensures Apart(TrackParams(), LfoParams()) && Apart(TrackParams(), FxDelayParams())
    ensures Apart(TrackParams(), FxReverbParams())
  {
  }

  lemma ApartTrig()
    ensures Apart(TrigParams(), SourceParams()) && Apart(TrigParams(), FilterParams())
    ensures Apart(TrigParams(), AmpParams()) && Apart(TrigParams(), LfoParams())
    ensures Apart(TrigParams(), FxDelayParams()) && Apart(TrigParams(), FxReverbParams())
  {
  }

  lemma ApartSource()
    ensures Apart(SourceParams(), FilterParams()) && Apart(SourceParams(), AmpParams())
    ensures Apart(SourceParams(), LfoParams()) && Apart(SourceParams(), FxDelayParams())
    ensures Apart(SourceParams(), FxReverbParams())
  {
  }

  lemma ApartFilterAmp()
    ensures Apart(FilterParams(), AmpParams()) && Apart(FilterParams(), LfoParams())
    ensures Apart(FilterParams(), FxDelayParams()) && Apart(FilterParams(), FxReverbParams())
    ensures Apart(AmpParams(), LfoParams()) && Apart(AmpParams(), FxDelayParams())
    ensures Apart(AmpParams(), FxReverbParams())
  {
  }

  lemma ApartLfoDelay()
    ensures Apart(LfoParams(), FxDelayParams()) && Apart(LfoParams(), FxReverbParams())
    ensures Apart(FxDelayParams(), FxReverbParams())
  {
  }

  /** No key occurs twice in the catalogue's lists, so no insert of `MidiMap::new` overwrites another. */
  lemma CatalogueHasNoRepeatedCc()
    ensures NoRepeatedCc(Groups())
  {
    DistinctWithinLists();
    ApartTrack();
    ApartTrig();
    ApartSource();
    ApartFilterAmp();
    ApartLfoDelay();
  }

  lemma ListedBelow128()
    ensures forall g, i :: 0 <= g < |Groups()| && 0 <= i < |Groups()[g].entries| ==> Groups()[g].entries[i].0 < 128
  {
  }

  /** The eight lists hold 4 + 5 + 8 + 8 + 8 + 8 + 8 + 7 = 56 entries. */
  lemma CatalogueTotal()
    ensures TotalEntries(Groups()) == 56
  {
    var gs := Groups();
    assert TotalEntries(gs[..1]) == 4 by { assert gs[..1][..0] == []; }
    assert TotalEntries(gs[..2]) == 9 by { assert gs[..2][..1] == gs[..1]; }
    assert TotalEntries(gs[..3]) == 17 by { assert gs[..3][..2] == gs[..2]; }
    assert TotalEntries(gs[..4]) == 25 by { assert gs[..4][..3] == gs[..3]; }
    assert TotalEntries(gs[..5]) == 33 by { assert gs[..5][..4] == gs[..4]; }
    assert TotalEntries(gs[..6]) == 41 by { assert gs[..6][..5] == gs[..5]; }
    assert TotalEntries(gs[..7]) == 49 by { assert gs[..7][..6] == gs[..6]; }
    assert gs[..8] == gs;
  }

  // ---------------------------------------------------------------------------
  // The table `MidiMap::new` builds.

  /** Every entry is stored under its own cc. */
  lemma TableKeyedByCc()
    ensures KeyedByCc(FullTable())
  {
    InsertGroupsKeyed(map[], Groups());
  }

  /** A cc has an entry exactly when it is among the literal keys. */
  lemma TableKeysAreListed(cc: Cc)
    ensures cc in FullTable() <==> Listed(cc)
  {
    InsertGroupsKeys(map[], Groups());
    GroupsCcsMembers(Groups(), cc);
  }

  /** Every entry's category is one of the eight list categories. */
  lemma TableCategories()
    ensures forall k :: k in FullTable() ==> FullTable()[k].category in Categories()
  {
    InsertGroupsCategories(map[], Groups(), Categories());
  }

  /** Every literal entry is in the table as written: no insert overwrote another. */
  lemma TableStoresEveryEntry(g: nat, i: nat)
    requires g < |Groups()| && i < |Groups()[g].entries|
    ensures Groups()[g].entries[i].0 in FullTable()
    ensures FullTable()[Groups()[g].entries[i].0]
         == Param(Groups()[g].entries[i].1, Groups()[g].entries[i].0, Groups()[g].category)
  {
    CatalogueHasNoRepeatedCc();
    InsertGroupsStores(Groups(), g, i);
  }

  /** The table has 56 keys, all below 128 (valid 7-bit controller numbers). */
  lemma TableSize()
    ensures |FullTable()| == 56
    ensures forall k :: k in FullTable() ==> k < 128
  {
    CatalogueHasNoRepeatedCc();
    InsertGroupsKeys(map[], Groups());
    GroupsCcsCard(Groups());
    CatalogueTotal();
    ListedBelow128();
    forall k | k in FullTable() ensures k < 128 {
      TableKeysAreListed(k);
    }
  }

  lemma FilterFrequencyEntry()
    ensures 74 in FullTable() && FullTable()[74] == Param("Filter Frequency", 74, "Filter")
  {
    TableStoresEveryEntry(3, 0);
  }

  // ---------------------------------------------------------------------------

  /** `MidiMap`: the catalogue object; its table is filled by the constructor and only read afterwards. */
  class MidiMap {
    var paramsByCc: Table

    /** The table is the one `new` builds: no method changes it afterwards. */
    ghost predicate Valid()
      reads this
    {
      paramsByCc == FullTable()
    }

    /** `MidiMap::new`: inserts the eight lists in order, each entry under its cc. */
    constructor ()
      ensures Valid()
    {
      var groups := Groups();
      var m: Table := map[];
      for g := 0 to |groups|
        invariant m == InsertGroups(map[], groups[..g])
      {
        var group := groups[g];
        ghost var before := m;
        for i := 0 to |group.entries|
          invariant m == InsertEntries(before, group.category, group.entries[..i])
        {
          var (cc, name) := group.entries[i];
          assert group.entries[..i + 1][..i] == group.entries[..i];
          m := m[cc := Param(name, cc, group.category)];
        }
        assert group.entries[..|group.entries|] == group.entries;
        assert groups[..g + 1][..g] == groups[..g];
      }
      assert groups[..|groups|] == groups;
      paramsByCc := m;
    }

    /** `get_parameter`: the entry listed under `cc`, or `None` when no list mentions `cc`. */
    function GetParameter(cc: Cc): (r: Option<Param>)
      reads this
      requires Valid()
      ensures r.None? <==> !Listed(cc)
      ensures r.Some? ==> r.value.cc == cc && r.value.category in Categories()
      ensures forall g, i :: 0 <= g < |Groups()| && 0 <= i < |Groups()[g].entries| && Groups()[g].entries[i].0 == cc
                ==> r == Some(Param(Groups()[g].entries[i].1, cc, Groups()[g].category))
    {
      TableKeysAreListed(cc);
      TableKeyedByCc();
      TableCategories();
      forall g, i | 0 <= g < |Groups()| && 0 <= i < |Groups()[g].entries|
        ensures Groups()[g].entries[i].0 in FullTable()
        ensures FullTable()[Groups()[g].entries[i].0]
                == Param(Groups()[g].entries[i].1, Groups()[g].entries[i].0, Groups()[g].category)
      {
        TableStoresEveryEntry(g, i);
      }
      if cc in paramsByCc then Some(paramsByCc[cc]) else None
    }

    /** `get_name`: the listed name, or "CC " followed by the decimal numeral of `cc`. */
    function GetName(cc: Cc): (name: string)
      reads this
      requires Valid()
      ensures Listed(cc) ==> name == GetParameter(cc).value.name
      ensures !Listed(cc) ==> |name| > 3 && name[..3] == "CC "
      ensures !Listed(cc) ==> (forall i :: 3 <= i < |name| ==> Decimal.IsDigit(name[i]))
      ensures !Listed(cc) ==> Decimal.Value(name[3..]) == cc
      ensures !Listed(cc) ==> (name[3] == '0' <==> cc == 0)
      ensures !Listed(cc) ==> name == "CC " + Decimal.Render(cc)
    {
      TableKeysAreListed(cc);
      Decimal.ValueOfRender(cc);
      Decimal.RenderIsNumeral(cc);
      if cc in paramsByCc then paramsByCc[cc].name else "CC " + Decimal.Render(cc)
    }

    /**
     * `get_all_parameters`: the stored entries, one per key, in ascending cc order.
     * The entries are collected in the map's (unspecified) iteration order and then
     * sorted in place by cc.
     */
    method GetAllParameters() returns (params: seq<Param>)
      requires Valid()
      ensures |params| == |paramsByCc| == 56
      ensures forall i :: 0 <= i < |params| ==> params[i].cc in paramsByCc && paramsByCc[params[i].cc] == params[i]
      ensures forall i, j :: 0 <= i < j < |params| ==> params[i].cc < params[j].cc
      ensures forall k :: k in paramsByCc ==> exists i :: 0 <= i < |params| && params[i].cc == k
    {
      TableKeyedByCc();
      TableSize();
      var collected := CollectValues();
      var a := new Param[|collected|](i requires 0 <= i < |collected| => collected[i]);
      SortByCc(a, paramsByCc);
      params := a[..];
      CoversAllKeys(params, paramsByCc);
    }

    /** The map's values as a sequence, in an order the model leaves open (a `HashMap`'s iteration order). */
    method CollectValues() returns (vals: seq<Param>)
      requires KeyedByCc(paramsByCc)
      ensures |vals| == |paramsByCc|
      ensures forall i :: 0 <= i < |vals| ==> vals[i].cc in paramsByCc && paramsByCc[vals[i].cc] == vals[i]
      ensures forall i, j :: 0 <= i < j < |vals| ==> vals[i].cc != vals[j].cc
    {
      vals := [];
      var rest := paramsByCc.Keys;
      while rest != {}
        invariant rest <= paramsByCc.Keys
        invariant |vals| + |rest| == |paramsByCc|
        invariant forall i :: 0 <= i < |vals| ==> vals[i].cc in paramsByCc && paramsByCc[vals[i].cc] == vals[i]
        invariant forall i :: 0 <= i < |vals| ==> vals[i].cc !in rest
        invariant forall i, j :: 0 <= i < j < |vals| ==> vals[i].cc != vals[j].cc
        decreases |rest|
      {
        var k :| k in rest;
        vals := vals + [paramsByCc[k]];
        rest := rest - {k};
      }
    }
  }

  /** No two elements of `s` share a cc. */
  predicate CcsDistinct(s: seq<Param>) {
    forall p, q :: 0 <= p < q < |s| ==> s[p].cc != s[q].cc
  }

  /** Every element of `s` is the entry `m` stores under its cc. */
  predicate DrawnFrom(s: seq<Param>, m: Table) {
    forall p :: 0 <= p < |s| ==> s[p].cc in m && m[s[p].cc] == s[p]
  }

  /** Sorts `a` by cc in place (`sort_by_key`), as an insertion sort. */
  method SortByCc(a: array<Param>, m: Table)
    requires CcsDistinct(a[..]) && DrawnFrom(a[..], m)
    modifies a
    ensures forall p, q :: 0 <= p < q < a.Length ==> a[p].cc < a[q].cc
    ensures CcsDistinct(a[..]) && DrawnFrom(a[..], m)
    ensures multiset(a[..]) == multiset(old(a[..]))
  {
    for i := 0 to a.Length
      invariant forall p, q :: 0 <= p < q < i ==> a[p].cc < a[q].cc
      invariant CcsDistinct(a[..]) && DrawnFrom(a[..], m)
      invariant multiset(a[..]) == multiset(old(a[..]))
    {
      Sink(a, i, m);
    }
  }

  /** Moves `a[i]` down into the sorted prefix `a[..i]`, leaving `a[..i + 1]` sorted. */
  method Sink(a: array<Param>, i: nat, m: Table)
    requires i < a.Length
    requires forall p, q :: 0 <= p < q < i ==> a[p].cc < a[q].cc
    requires CcsDistinct(a[..]) && DrawnFrom(a[..], m)
    modifies a
    ensures forall p, q :: 0 <= p < q <= i ==> a[p].cc < a[q].cc
    ensures CcsDistinct(a[..]) && DrawnFrom(a[..], m)
    ensures multiset(a[..]) == multiset(old(a[..]))
  {
    var j := i;
    while j > 0 && a[j - 1].cc > a[j].cc
      invariant 0 <= j <= i
      invariant forall p, q :: 0 <= p < q <= i && p != j && q != j ==> a[p].cc < a[q].cc
      invariant forall q :: j < q <= i ==> a[j].cc < a[q].cc
      invariant CcsDistinct(a[..]) && DrawnFrom(a[..], m)
      invariant multiset(a[..]) == multiset(old(a[..]))
    {
      Swap(a, j - 1, j, m);
      j := j - 1;
    }
    assert j > 0 ==> a[j - 1].cc != a[j].cc;
  }

  /** Exchanges two elements; what the sort relies on is that this keeps the elements and their keys. */
  method Swap(a: array<Param>, x: nat, y: nat, ghost m: Table)
    requires x < y < a.Length
    modifies a
    ensures a[x] == old(a[y]) && a[y] == old(a[x])
    ensures forall p :: 0 <= p < a.Length && p != x && p != y ==> a[p] == old(a[p])
    ensures multiset(a[..]) == multiset(old(a[..]))
    ensures CcsDistinct(old(a[..])) ==> CcsDistinct(a[..])
    ensures DrawnFrom(old(a[..]), m) ==> DrawnFrom(a[..], m)
  {
    a[x], a[y] := a[y], a[x];
  }

  lemma {:induction false} SubsetCard<T>(s: set<T>, t: set<T>)
    requires s <= t
    ensures |s| <= |t|
    decreases |s|
  {
    if s != {} {
      var x :| x in s;
      SubsetCard(s - {x}, t - {x});
    }
  }

  /** Distinct keys drawn from `m`, as many as `m` has: every key of `m` is among them. */
  lemma CoversAllKeys(params: seq<Param>, m: Table)
    requires |params| == |m|
    requires forall i :: 0 <= i < |params| ==> params[i].cc in m
    requires forall i, j :: 0 <= i < j < |params| ==> params[i].cc < params[j].cc
    ensures forall k :: k in m ==> exists i :: 0 <= i < |params| && params[i].cc == k
  {
    var ccs := set i | 0 <= i < |params| :: params[i].cc;
    assert ccs <= m.Keys;
    CcsCount(params);
    assert ccs == m.Keys by {
      if exists k :: k in m && k !in ccs {
        var k :| k in m && k !in ccs;
        SubsetCard(ccs, m.Keys - {k});
      }
    }
    forall k | k in m ensures exists i :: 0 <= i < |params| && params[i].cc == k {
      assert k in ccs;
    }
  }

  lemma {:induction false} CcsCount(params: seq<Param>)
    requires forall i, j :: 0 <= i < j < |params| ==> params[i].cc < params[j].cc
    ensures |set i | 0 <= i < |params| :: params[i].cc| == |params|
    decreases |params|
  {
    if params != [] {
      var init := params[..|params| - 1];
      CcsCount(init);
      var s := set i | 0 <= i < |init| :: init[i].cc;
      var t := set i | 0 <= i < |params| :: params[i].cc;
      assert t == s + {params[|params| - 1].cc};
      assert params[|params| - 1].cc !in s;
    }
  }
}
