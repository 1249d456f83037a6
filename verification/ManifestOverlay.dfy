/** Baking a template into a manifest's flags, and laying a manifest back over its template for
    editing. */
module ManifestOverlay {
  import opened Wrappers

  /** A template's flag: an empty name is a positional; no value is a standalone flag. */
  datatype TemplateFlag = TemplateFlag(name: string, value: Option<string>, editable: bool, required: bool, isOutput: bool)

  datatype ManifestFlag = ManifestFlag(name: string, value: Option<string>, isOutput: bool)

  type Template = seq<TemplateFlag>
  type Form = seq<string>

  // ---- Baking ----

  function FieldAt(v: Form, i: nat): string { if i < |v| then v[i] else "" }

  predicate IsOptionalPositional(f: TemplateFlag) { f.name == "" && f.editable && !f.required }

  predicate IsStandalone(f: TemplateFlag) { f.name != "" && f.value.None? && !f.editable }

  /** The slot is an optional positional left empty. */
  predicate IsEmptySlot(t: Template, v: Form, i: nat) {
    i < |t| && IsOptionalPositional(t[i]) && FieldAt(v, i) == ""
  }

  /** A slot is dropped when it is an empty optional positional, or a standalone flag right before
      one. */
  predicate Dropped(t: Template, v: Form, i: nat) {
    IsEmptySlot(t, v, i) || (i < |t| && IsStandalone(t[i]) && IsEmptySlot(t, v, i + 1))
  }

  function BakedFlag(f: TemplateFlag, v: Form, i: nat): ManifestFlag {
    ManifestFlag(f.name, if f.editable && i < |v| then Some(v[i]) else f.value, f.isOutput)
  }

  /** The kept slots from i on. */
  function Kept(t: Template, v: Form, i: nat): seq<nat>
    requires i <= |t|
    decreases |t| - i
  {
    if i == |t| then [] else (if Dropped(t, v, i) then [] else [i]) + Kept(t, v, i + 1)
  }

  lemma {:induction false} KeptAscends(t: Template, v: Form, i: nat)
    requires i <= |t|
    ensures forall a :: 0 <= a < |Kept(t, v, i)| ==> i <= Kept(t, v, i)[a] < |t| && !Dropped(t, v, Kept(t, v, i)[a])
    ensures forall a, b :: 0 <= a < b < |Kept(t, v, i)| ==> Kept(t, v, i)[a] < Kept(t, v, i)[b]
    ensures forall s :: i <= s < |t| && !Dropped(t, v, s) ==> s in Kept(t, v, i)
    decreases |t| - i
  {
    if i < |t| { KeptAscends(t, v, i + 1); }
  }

  function BakeFrom(t: Template, v: Form, i: nat): seq<ManifestFlag>
    requires i <= |t|
    decreases |t| - i
  {
    if i == |t| then [] else (if Dropped(t, v, i) then [] else [BakedFlag(t[i], v, i)]) + BakeFrom(t, v, i + 1)
  }

  function Bake(t: Template, v: Form): seq<ManifestFlag> { BakeFrom(t, v, 0) }

  /** The manifest's flags are the kept slots, in order. */
  lemma {:induction false} BakeIsKept(t: Template, v: Form, i: nat)
    requires i <= |t|
    ensures |BakeFrom(t, v, i)| == |Kept(t, v, i)|
    ensures forall a :: 0 <= a < |Kept(t, v, i)| ==>
              Kept(t, v, i)[a] < |t| && BakeFrom(t, v, i)[a] == BakedFlag(t[Kept(t, v, i)[a]], v, Kept(t, v, i)[a])
    decreases |t| - i
  {
    hide Dropped, BakedFlag;
    if i < |t| {
      BakeIsKept(t, v, i + 1);
      var kept, rest := Kept(t, v, i), Kept(t, v, i + 1);
      var baked, later := BakeFrom(t, v, i), BakeFrom(t, v, i + 1);
      if Dropped(t, v, i) {
        assert kept == rest && baked == later;
      } else {
        assert kept == [i] + rest && baked == [BakedFlag(t[i], v, i)] + later;
        forall a | 0 <= a < |kept|
          ensures kept[a] < |t| && baked[a] == BakedFlag(t[kept[a]], v, kept[a])
        {
          if a > 0 { assert kept[a] == rest[a - 1] && baked[a] == later[a - 1]; }
        }
      }
    }
  }

  /** The slot is a positional that may be edited and left out, and the form has nothing for it. */
  predicate LeftBlank(t: Template, v: Form, i: nat) {
    i < |t| && t[i].name == "" && t[i].editable && !t[i].required && (i >= |v| || v[i] == "")
  }

  predicate LeftOut(t: Template, v: Form, i: nat) {
    LeftBlank(t, v, i) || (i < |t| && t[i].name != "" && t[i].value.None? && !t[i].editable && LeftBlank(t, v, i + 1))
  }

  /** The flags of a manifest, slot by slot: a blank optional positional is left out, and so is a flag that takes no
      value and cannot be edited when a blank positional comes right after it; every other slot is there, under its
      name and mark, with what the form has for it if it can be edited and the template's value if not. */
  lemma SlotsOfBake(t: Template, v: Form)
    ensures var slots := Kept(t, v, 0);
            && |Bake(t, v)| == |slots|
            && (forall i :: i in slots <==> 0 <= i < |t| && !LeftOut(t, v, i))
            && (forall a, b :: 0 <= a < b < |slots| ==> slots[a] < slots[b])
            && (forall a :: 0 <= a < |slots| ==>
                  && slots[a] < |t|
                  && var f, e := t[slots[a]], Bake(t, v)[a];
                  && e.name == f.name && e.isOutput == f.isOutput
                  && e.value == if f.editable && slots[a] < |v| then Some(v[slots[a]]) else f.value)
  {
    KeptAscends(t, v, 0);
    BakeIsKept(t, v, 0);
    forall i: nat
      ensures IsEmptySlot(t, v, i) <==> LeftBlank(t, v, i)
    {
    }
    forall i | i in Kept(t, v, 0)
      ensures 0 <= i < |t| && !Dropped(t, v, i)
    {
      var a :| 0 <= a < |Kept(t, v, 0)| && Kept(t, v, 0)[a] == i;
    }
  }

  /** The loop, which skips a standalone flag and the empty positional after it in one go. */
  method BakeFlags(t: Template, v: Form) returns (flags: seq<ManifestFlag>)
    ensures flags == Bake(t, v)
  {
    flags := [];
    var i := 0;
    while i < |t|
      invariant 0 <= i <= |t|
      invariant flags + BakeFrom(t, v, i) == Bake(t, v)
    {
      var f := t[i];
      if f.name != "" && f.value.None? && !f.editable && i + 1 < |t| {
        var next := t[i + 1];
        if next.name == "" && next.editable && !next.required {
          var nextValue := if i + 1 < |v| then v[i + 1] else "";
          if nextValue == "" {
            BakeSkips(t, v, i);
            BakeSkips(t, v, i + 1);
            i := i + 2;
            continue;
          }
        }
      }
      if f.name == "" && f.editable && !f.required {
        var value := if i < |v| then v[i] else "";
        if value == "" {
          BakeSkips(t, v, i);
          i := i + 1;
          continue;
        }
      }
      var baked := ManifestFlag(f.name, if f.editable && i < |v| then Some(v[i]) else f.value, f.isOutput);
      BakeTakes(t, v, i, flags);
      flags := flags + [baked];
      i := i + 1;
    }
  }

  lemma BakeSkips(t: Template, v: Form, i: nat)
    requires i < |t| && Dropped(t, v, i)
    ensures BakeFrom(t, v, i) == BakeFrom(t, v, i + 1)
  {
    assert [] + BakeFrom(t, v, i + 1) == BakeFrom(t, v, i + 1);
  }

  lemma BakeTakes(t: Template, v: Form, i: nat, flags: seq<ManifestFlag>)
    requires i < |t| && !Dropped(t, v, i)
    ensures flags + BakeFrom(t, v, i) == (flags + [BakedFlag(t[i], v, i)]) + BakeFrom(t, v, i + 1)
  {
  }

  // ---- The two-cursor walk ----

  /** Which manifest entry each slot from ti on is matched with, the next unmatched entry being mi. */
  function Walk(t: Template, m: seq<ManifestFlag>, ti: nat, mi: nat): seq<Option<nat>>
    requires ti <= |t| && mi <= |m|
    decreases |t| - ti
  {
    if ti == |t| then []
    else if mi < |m| && m[mi].name == t[ti].name then [Some(mi)] + Walk(t, m, ti + 1, mi + 1)
    else [None] + Walk(t, m, ti + 1, mi)
  }

  /** The slots a walk matches, in order. */
  function Slots(w: seq<Option<nat>>, base: nat): seq<nat>
  {
    if w == [] then [] else (if w[0].Some? then [base] else []) + Slots(w[1..], base + 1)
  }

  /** The names of m occur in order among the slots of t from ti on, at the given slots. */
  ghost predicate Embeds(t: Template, m: seq<ManifestFlag>, mi: nat, slots: seq<nat>, ti: nat) {
    && mi + |slots| == |m|
    && (forall a :: 0 <= a < |slots| ==> ti <= slots[a] < |t| && t[slots[a]].name == m[mi + a].name)
    && (forall a, b :: 0 <= a < b < |slots| ==> slots[a] < slots[b])
  }

  lemma KeptEmbeds(t: Template, v: Form)
    ensures Embeds(t, Bake(t, v), 0, Kept(t, v, 0), 0)
  {
    KeptAscends(t, v, 0);
    BakeIsKept(t, v, 0);
  }

  /** How many entries the walk consumes. */
  function Consumed(w: seq<Option<nat>>): nat { |Slots(w, 0)| }

  lemma {:induction false} SlotsShift(w: seq<Option<nat>>, base: nat, other: nat)
    ensures |Slots(w, base)| == |Slots(w, other)|
    decreases |w|
  {
    if w != [] { SlotsShift(w[1..], base + 1, other + 1); }
  }

  lemma {:induction false} NothingLeftToMatch(t: Template, m: seq<ManifestFlag>, ti: nat)
    requires ti <= |t|
    ensures Slots(Walk(t, m, ti, |m|), ti) == []
    decreases |t| - ti
  {
    if ti < |t| {
      NothingLeftToMatch(t, m, ti + 1);
      assert Walk(t, m, ti, |m|)[1..] == Walk(t, m, ti + 1, |m|);
    }
  }

  /** Greedy matching loses nothing: if the entries can be placed at all, the walk places every one of
      them, in order, and none later than any other placement does. */
  lemma {:induction false} WalkIsEarliest(t: Template, m: seq<ManifestFlag>, ti: nat, mi: nat, slots: seq<nat>)
    requires ti <= |t| && Embeds(t, m, mi, slots, ti)
    ensures var g := Slots(Walk(t, m, ti, mi), ti);
            && Embeds(t, m, mi, g, ti)
            && forall a :: 0 <= a < |slots| ==> g[a] <= slots[a]
    decreases |t| - ti
  {
    hide Walk, Slots;
    if slots == [] {
      NothingLeftToMatch(t, m, ti);
    } else {
      assert ti <= slots[0] < |t|;
      if m[mi].name == t[ti].name {
        var rest := slots[1..];
        forall a | 0 <= a < |rest|
          ensures slots[0] < rest[a] && rest[a] == slots[a + 1]
        {
        }
        WalkIsEarliest(t, m, ti + 1, mi + 1, rest);
        WalkMatches(t, m, ti, mi);
      } else {
        assert slots[0] > ti;
        WalkIsEarliest(t, m, ti + 1, mi, slots);
        WalkPasses(t, m, ti, mi);
      }
    }
  }

  /** The overlay consumes every entry a bake produced. */
  lemma OverlayConsumesAll(t: Template, v: Form)
    ensures Consumed(Walk(t, Bake(t, v), 0, 0)) == |Bake(t, v)|
  {
    KeptEmbeds(t, v);
    WalkIsEarliest(t, Bake(t, v), 0, 0, Kept(t, v, 0));
  }

  // ---- When every value returns to its own slot ----

  /** The first kept slot after i, if any. */
  function NextKept(t: Template, v: Form, i: nat): (k: Option<nat>)
    requires i <= |t|
    ensures k.Some? ==> i <= k.value < |t| && !Dropped(t, v, k.value)
    ensures forall s :: i <= s < (if k.Some? then k.value else |t|) ==> Dropped(t, v, s)
    decreases |t| - i
  {
    if i == |t| then None else if !Dropped(t, v, i) then Some(i) else NextKept(t, v, i + 1)
  }

  /** No dropped slot has the name of the kept slot that follows it. */
  ghost predicate Unambiguous(t: Template, v: Form) {
    forall d :: 0 <= d < |t| && Dropped(t, v, d) && NextKept(t, v, d).Some? ==> t[NextKept(t, v, d).value].name != t[d].name
  }

  ghost predicate UnambiguousFrom(t: Template, v: Form, i: nat) {
    forall d :: i <= d < |t| && Dropped(t, v, d) && NextKept(t, v, d).Some? ==> t[NextKept(t, v, d).value].name != t[d].name
  }

  lemma {:induction false} NextKeptIsHead(t: Template, v: Form, i: nat)
    requires i <= |t|
    ensures NextKept(t, v, i).Some? <==> Kept(t, v, i) != []
    ensures Kept(t, v, i) != [] ==> NextKept(t, v, i) == Some(Kept(t, v, i)[0])
    decreases |t| - i
  {
    if i < |t| && Dropped(t, v, i) { NextKeptIsHead(t, v, i + 1); }
  }

  lemma UnambiguousStep(t: Template, v: Form, i: nat)
    requires i < |t|
    ensures UnambiguousFrom(t, v, i) <==>
            UnambiguousFrom(t, v, i + 1)
            && (Dropped(t, v, i) && NextKept(t, v, i).Some? ==> t[NextKept(t, v, i).value].name != t[i].name)
  {
  }

  /** The entry at the cursor is that of the next kept slot. */
  lemma CursorIsNextKept(t: Template, v: Form, m: seq<ManifestFlag>, ti: nat, mi: nat)
    requires ti <= |t| && mi <= |m| && m[mi..] == BakeFrom(t, v, ti)
    ensures mi < |m| <==> NextKept(t, v, ti).Some?
    ensures mi < |m| ==> m[mi] == BakedFlag(t[NextKept(t, v, ti).value], v, NextKept(t, v, ti).value)
  {
    NextKeptIsHead(t, v, ti);
    BakeIsKept(t, v, ti);
    if mi < |m| { assert m[mi] == m[mi..][0]; }
  }

  lemma WalkMatches(t: Template, m: seq<ManifestFlag>, ti: nat, mi: nat)
    requires ti < |t| && mi < |m| && m[mi].name == t[ti].name
    ensures Slots(Walk(t, m, ti, mi), ti) == [ti] + Slots(Walk(t, m, ti + 1, mi + 1), ti + 1)
  {
    assert Walk(t, m, ti, mi)[1..] == Walk(t, m, ti + 1, mi + 1);
  }

  lemma WalkPasses(t: Template, m: seq<ManifestFlag>, ti: nat, mi: nat)
    requires ti < |t| && (mi < |m| ==> m[mi].name != t[ti].name)
    ensures mi <= |m| ==> Slots(Walk(t, m, ti, mi), ti) == Slots(Walk(t, m, ti + 1, mi), ti + 1)
  {
    if mi <= |m| { assert Walk(t, m, ti, mi)[1..] == Walk(t, m, ti + 1, mi); }
  }

  lemma KeptSlotMatches(t: Template, v: Form, m: seq<ManifestFlag>, ti: nat, mi: nat)
    requires ti < |t| && mi < |m| && !Dropped(t, v, ti) && m[mi].name == t[ti].name
    ensures Slots(Walk(t, m, ti, mi), ti) == Kept(t, v, ti) <==> Slots(Walk(t, m, ti + 1, mi + 1), ti + 1) == Kept(t, v, ti + 1)
  {
    WalkMatches(t, m, ti, mi);
    assert Slots(Walk(t, m, ti, mi), ti)[1..] == Slots(Walk(t, m, ti + 1, mi + 1), ti + 1);
    assert Kept(t, v, ti) == [ti] + Kept(t, v, ti + 1);
    assert Kept(t, v, ti)[1..] == Kept(t, v, ti + 1);
  }

  lemma DroppedSlotMatches(t: Template, v: Form, m: seq<ManifestFlag>, ti: nat, mi: nat)
    requires ti < |t| && mi < |m| && Dropped(t, v, ti) && m[mi].name == t[ti].name
    ensures Slots(Walk(t, m, ti, mi), ti) != Kept(t, v, ti)
  {
    WalkMatches(t, m, ti, mi);
    NextKeptIsHead(t, v, ti);
    assert Slots(Walk(t, m, ti, mi), ti)[0] == ti;
  }

  lemma DroppedSlotPasses(t: Template, v: Form, m: seq<ManifestFlag>, ti: nat, mi: nat)
    requires ti < |t| && mi <= |m| && Dropped(t, v, ti) && (mi < |m| ==> m[mi].name != t[ti].name)
    ensures Slots(Walk(t, m, ti, mi), ti) == Slots(Walk(t, m, ti + 1, mi), ti + 1)
    ensures Kept(t, v, ti) == Kept(t, v, ti + 1)
  {
    WalkPasses(t, m, ti, mi);
    assert [] + Kept(t, v, ti + 1) == Kept(t, v, ti + 1);
  }

  /** The walk matches exactly the kept slots if and only if that is so. */
  lemma {:induction false} WalkFindsKeptIff(t: Template, v: Form, m: seq<ManifestFlag>, ti: nat, mi: nat)
    requires ti <= |t| && mi <= |m| && m[mi..] == BakeFrom(t, v, ti)
    ensures Slots(Walk(t, m, ti, mi), ti) == Kept(t, v, ti) <==> UnambiguousFrom(t, v, ti)
    decreases |t| - ti
  {
    if ti < |t| {
      UnambiguousStep(t, v, ti);
      CursorIsNextKept(t, v, m, ti, mi);
      BakeRest(t, v, m, ti, mi);
      if !Dropped(t, v, ti) {
        WalkFindsKeptIff(t, v, m, ti + 1, mi + 1);
        KeptSlotMatches(t, v, m, ti, mi);
      } else if mi < |m| && m[mi].name == t[ti].name {
        DroppedSlotMatches(t, v, m, ti, mi);
      } else {
        WalkFindsKeptIff(t, v, m, ti + 1, mi);
        DroppedSlotPasses(t, v, m, ti, mi);
      }
    }
  }

  lemma BakeRest(t: Template, v: Form, m: seq<ManifestFlag>, ti: nat, mi: nat)
    requires ti < |t| && mi <= |m| && m[mi..] == BakeFrom(t, v, ti)
    ensures if Dropped(t, v, ti) then m[mi..] == BakeFrom(t, v, ti + 1)
            else mi < |m| && m[mi + 1..] == BakeFrom(t, v, ti + 1)
  {
  }

  lemma OverlayIsExactIff(t: Template, v: Form)
    ensures Slots(Walk(t, Bake(t, v), 0, 0), 0) == Kept(t, v, 0) <==> Unambiguous(t, v)
  {
    var m := Bake(t, v);
    assert m[0..] == m;
    WalkFindsKeptIff(t, v, m, 0, 0);
  }

  // ---- A template that never goes wrong ----

  /** Every optional positional follows a standalone flag whose name no other slot has, and no
      positional follows it. */
  ghost predicate WellSeparated(t: Template) {
    forall i :: 0 <= i < |t| && IsOptionalPositional(t[i]) ==>
      && i > 0 && IsStandalone(t[i - 1])
      && (forall j :: 0 <= j < |t| && j != i - 1 ==> t[j].name != t[i - 1].name)
      && (i + 1 < |t| ==> t[i + 1].name != "")
  }

  /** Such a template is unambiguous whatever the user fills in. */
  lemma WellSeparatedIsUnambiguous(t: Template, v: Form)
    requires WellSeparated(t)
    ensures Unambiguous(t, v)
  {
    forall d | 0 <= d < |t| && Dropped(t, v, d) && NextKept(t, v, d).Some?
      ensures t[NextKept(t, v, d).value].name != t[d].name
    {
      var k := NextKept(t, v, d).value;
      if IsEmptySlot(t, v, d) {
        if k > d + 1 {
          assert Dropped(t, v, k - 1) && !IsEmptySlot(t, v, k);
          assert IsOptionalPositional(t[k - 1]);
        }
      } else {
        assert IsOptionalPositional(t[d + 1]);
      }
    }
  }

  // ---- The form and the round trip ----

  /** What the editor shows in slot i. */
  function Shown(m: seq<ManifestFlag>, w: seq<Option<nat>>, i: nat): string
    requires i < |w| && (w[i].Some? ==> w[i].value < |m|)
  {
    if w[i].Some? then m[w[i].value].value.GetOr("") else ""
  }

  /** A match is of equal names; entries are matched in order, each once, without gaps. */
  lemma {:induction false} WalkShape(t: Template, m: seq<ManifestFlag>, ti: nat, mi: nat)
    requires ti <= |t| && mi <= |m|
    ensures var w := Walk(t, m, ti, mi);
            && |w| == |t| - ti && mi + Consumed(w) <= |m|
            && (forall i :: 0 <= i < |w| && w[i].Some? ==> mi <= w[i].value < mi + Consumed(w) && m[w[i].value].name == t[ti + i].name)
            && (forall i, j :: 0 <= i < j < |w| && w[i].Some? && w[j].Some? ==> w[i].value < w[j].value)
    decreases |t| - ti
  {
    if ti < |t| {
      if mi < |m| && m[mi].name == t[ti].name {
        WalkShape(t, m, ti + 1, mi + 1);
        ConsumedMatch(t, m, ti, mi);
      } else {
        WalkShape(t, m, ti + 1, mi);
        ConsumedPass(t, m, ti, mi);
      }
    }
  }

  /** The form after opening a manifest for editing. */
  function Overlay(t: Template, m: seq<ManifestFlag>): (v: Form)
    ensures |v| == |t|
  {
    var w := Walk(t, m, 0, 0);
    WalkShape(t, m, 0, 0);
    seq(|t|, i requires 0 <= i < |t| => Shown(m, w, i))
  }

  ghost predicate EntryFits(t: Template, v: Form, m: seq<ManifestFlag>, w: Option<nat>, i: nat) {
    i < |t| && if Dropped(t, v, i) then w.None? else w.Some? && w.value < |m| && m[w.value] == BakedFlag(t[i], v, i)
  }

  ghost predicate AllFit(t: Template, v: Form, m: seq<ManifestFlag>, w: seq<Option<nat>>, ti: nat) {
    ti + |w| == |t| && forall i :: 0 <= i < |w| ==> EntryFits(t, v, m, w[i], ti + i)
  }

  /** Under an exact match, each kept slot is matched with its own entry and no dropped slot with any. */
  lemma {:induction false} ExactWalkEntries(t: Template, v: Form, m: seq<ManifestFlag>, ti: nat, mi: nat)
    requires ti <= |t| && mi <= |m| && m[mi..] == BakeFrom(t, v, ti) && UnambiguousFrom(t, v, ti)
    ensures AllFit(t, v, m, Walk(t, m, ti, mi), ti)
    decreases |t| - ti
  {
    if ti < |t| {
      UnambiguousStep(t, v, ti);
      BakeRest(t, v, m, ti, mi);
      CursorIsNextKept(t, v, m, ti, mi);
      HeadFits(t, v, m, ti, mi);
      var rest := if Dropped(t, v, ti) then mi else mi + 1;
      ExactWalkEntries(t, v, m, ti + 1, rest);
      EntriesCons(t, v, m, ti, if Dropped(t, v, ti) then None else Some(mi), Walk(t, m, ti + 1, rest));
    }
  }

  lemma HeadFits(t: Template, v: Form, m: seq<ManifestFlag>, ti: nat, mi: nat)
    requires ti < |t| && mi <= |m|
    requires mi < |m| <==> NextKept(t, v, ti).Some?
    requires mi < |m| ==> m[mi] == BakedFlag(t[NextKept(t, v, ti).value], v, NextKept(t, v, ti).value)
    requires Dropped(t, v, ti) && NextKept(t, v, ti).Some? ==> t[NextKept(t, v, ti).value].name != t[ti].name
    ensures if Dropped(t, v, ti)
            then EntryFits(t, v, m, None, ti) && Walk(t, m, ti, mi) == [None] + Walk(t, m, ti + 1, mi)
            else mi < |m| && EntryFits(t, v, m, Some(mi), ti) && Walk(t, m, ti, mi) == [Some(mi)] + Walk(t, m, ti + 1, mi + 1)
  {
  }

  lemma EntriesCons(t: Template, v: Form, m: seq<ManifestFlag>, ti: nat, head: Option<nat>, rest: seq<Option<nat>>)
    requires EntryFits(t, v, m, head, ti) && AllFit(t, v, m, rest, ti + 1)
    ensures AllFit(t, v, m, [head] + rest, ti)
  {
  }

  /** Opening a baked manifest shows every value in its own slot and leaves dropped slots empty. */
  lemma OverlayRestoresForm(t: Template, v: Form)
    requires Unambiguous(t, v)
    ensures var v' := Overlay(t, Bake(t, v));
            forall i :: 0 <= i < |t| ==>
              v'[i] == if Dropped(t, v, i) then "" else BakedFlag(t[i], v, i).value.GetOr("")
  {
    var m := Bake(t, v);
    assert m[0..] == m;
    ExactWalkEntries(t, v, m, 0, 0);
    WalkShape(t, m, 0, 0);
    var w := Walk(t, m, 0, 0);
    assert forall i :: 0 <= i < |t| ==> EntryFits(t, v, m, w[i], 0 + i) && Overlay(t, m)[i] == Shown(m, w, i);
  }

  /** A form that left no kept editable field out, except where the template has a value for it. */
  ghost predicate FormSuffices(t: Template, v: Form) {
    forall i :: |v| <= i < |t| && t[i].editable && !Dropped(t, v, i) ==> t[i].value.Some?
  }

  lemma {:induction false} SameFieldsSameBake(t: Template, v: Form, v': Form, i: nat)
    requires i <= |t| && |v'| == |t|
    requires forall k :: 0 <= k < |t| ==> v'[k] == if Dropped(t, v, k) then "" else BakedFlag(t[k], v, k).value.GetOr("")
    ensures forall k :: 0 <= k < |t| ==> (Dropped(t, v', k) <==> Dropped(t, v, k))
    ensures BakeFrom(t, v', i) == BakeFrom(t, v, i) <==>
            forall k :: i <= k < |t| && |v| <= k && t[k].editable && !Dropped(t, v, k) ==> t[k].value.Some?
    decreases |t| - i
  {
    forall k | 0 <= k < |t|
      ensures IsEmptySlot(t, v', k) <==> IsEmptySlot(t, v, k)
    {
      SlotStaysEmpty(t, v, v', k);
    }
    if i < |t| {
      SameFieldsSameBake(t, v, v', i + 1);
      if !Dropped(t, v, i) {
        assert BakeFrom(t, v', i)[1..] == BakeFrom(t, v', i + 1) && BakeFrom(t, v, i)[1..] == BakeFrom(t, v, i + 1);
        assert BakeFrom(t, v', i)[0] == BakedFlag(t[i], v', i) && BakeFrom(t, v, i)[0] == BakedFlag(t[i], v, i);
      } else {
        assert BakeFrom(t, v', i) == BakeFrom(t, v', i + 1) && BakeFrom(t, v, i) == BakeFrom(t, v, i + 1);
      }
    }
  }

  lemma SlotStaysEmpty(t: Template, v: Form, v': Form, k: nat)
    requires k < |t| && |v'| == |t|
    requires v'[k] == if Dropped(t, v, k) then "" else BakedFlag(t[k], v, k).value.GetOr("")
    ensures IsEmptySlot(t, v', k) <==> IsEmptySlot(t, v, k)
  {
  }

  /** The round trip: where the match is exact, baking the form of a baked manifest gives the same flags
      if and only if the first form sufficed - in particular whenever it had a field for every slot. */
  lemma RoundTripIff(t: Template, v: Form)
    requires Unambiguous(t, v)
    ensures Bake(t, Overlay(t, Bake(t, v))) == Bake(t, v) <==> FormSuffices(t, v)
  {
    OverlayRestoresForm(t, v);
    SameFieldsSameBake(t, v, Overlay(t, Bake(t, v)), 0);
  }

  // ---- The overlay as written ----

  /** Matches are of equal names, to entries marked as consumed, and no entry is matched twice. */
  ghost predicate Matching(t: Template, m: seq<ManifestFlag>, matched: seq<Option<nat>>, consumed: seq<bool>) {
    && |matched| == |t| && |consumed| == |m|
    && (forall i :: 0 <= i < |t| && matched[i].Some? ==>
          matched[i].value < |m| && m[matched[i].value].name == t[i].name && consumed[matched[i].value])
    && (forall i, j :: 0 <= i < j < |t| && matched[i].Some? ==> matched[i] != matched[j])
  }

  /** The walk, then the salvage of named entries it could not place. Salvage only fills slots the walk
      left open, and leaves no named entry over while a slot of its name is free. */
  method OverlayFlags(t: Template, m: seq<ManifestFlag>) returns (matched: seq<Option<nat>>, consumed: seq<bool>)
    ensures Matching(t, m, matched, consumed)
    ensures |Walk(t, m, 0, 0)| == |t|
    ensures forall i :: 0 <= i < |t| && Walk(t, m, 0, 0)[i].Some? ==> matched[i] == Walk(t, m, 0, 0)[i]
    ensures forall k, i :: 0 <= k < |m| && !consumed[k] && m[k].name != "" && 0 <= i < |t| && t[i].name == m[k].name ==> matched[i].Some?
    ensures (exists v :: m == Bake(t, v)) ==> matched == Walk(t, m, 0, 0)
  {
    hide Walk, Bake, Consumed;
    ghost var walk := Walk(t, m, 0, 0);
    WalkShape(t, m, 0, 0);
    ghost var mi: nat;
    matched, consumed, mi := WalkBoth(t, m);
    ghost var placed := mi;
    WalkIsMatching(t, m, consumed);
    for k := 0 to |m|
      invariant Matching(t, m, matched, consumed)
      invariant forall i :: 0 <= i < |t| && walk[i].Some? ==> matched[i] == walk[i]
      invariant placed == |m| ==> matched == walk && forall n :: 0 <= n < |m| ==> consumed[n]
      invariant forall n, i :: 0 <= n < k && !consumed[n] && m[n].name != "" && 0 <= i < |t| && t[i].name == m[n].name ==> matched[i].Some?
    {
      if consumed[k] || m[k].name == "" {
        continue;
      }
      for ti := 0 to |t|
        invariant Matching(t, m, matched, consumed) && !consumed[k] && placed != |m|
        invariant forall i :: 0 <= i < |t| && walk[i].Some? ==> matched[i] == walk[i]
        invariant forall n, i :: 0 <= n < k && !consumed[n] && m[n].name != "" && 0 <= i < |t| && t[i].name == m[n].name ==> matched[i].Some?
        invariant forall i :: 0 <= i < ti && t[i].name == m[k].name ==> matched[i].Some?
      {
        if matched[ti].None? && t[ti].name == m[k].name {
          matched := matched[ti := Some(k)];
          consumed := consumed[k := true];
          break;
        }
      }
    }
    if v :| m == Bake(t, v) {
      OverlayConsumesAll(t, v);
    }
  }

  /** Where the manifest cursor ends up. */
  function End(t: Template, m: seq<ManifestFlag>, ti: nat, mi: nat): nat
    requires ti <= |t| && mi <= |m|
    decreases |t| - ti
  {
    if ti == |t| then mi
    else if mi < |m| && m[mi].name == t[ti].name then End(t, m, ti + 1, mi + 1)
    else End(t, m, ti + 1, mi)
  }

  lemma {:induction false} EndIsConsumed(t: Template, m: seq<ManifestFlag>, ti: nat, mi: nat)
    requires ti <= |t| && mi <= |m|
    ensures End(t, m, ti, mi) == mi + Consumed(Walk(t, m, ti, mi))
    decreases |t| - ti
  {
    if ti < |t| {
      if mi < |m| && m[mi].name == t[ti].name {
        EndIsConsumed(t, m, ti + 1, mi + 1);
        ConsumedMatch(t, m, ti, mi);
      } else {
        EndIsConsumed(t, m, ti + 1, mi);
        ConsumedPass(t, m, ti, mi);
      }
    }
  }

  lemma WalkIsMatching(t: Template, m: seq<ManifestFlag>, consumed: seq<bool>)
    requires |consumed| == |m| && forall k :: 0 <= k < |m| ==> (consumed[k] <==> k < Consumed(Walk(t, m, 0, 0)))
    ensures Matching(t, m, Walk(t, m, 0, 0), consumed)
  {
    WalkShape(t, m, 0, 0);
    var w := Walk(t, m, 0, 0);
    assert forall i :: 0 <= i < |w| && w[i].Some? ==> m[w[i].value].name == t[0 + i].name;
  }

  /** The two cursors. */
  method WalkBoth(t: Template, m: seq<ManifestFlag>) returns (matched: seq<Option<nat>>, consumed: seq<bool>, ghost placed: nat)
    ensures |matched| == |t| && |consumed| == |m| && matched == Walk(t, m, 0, 0)
    ensures placed == Consumed(Walk(t, m, 0, 0)) && placed <= |m|
    ensures forall k :: 0 <= k < |m| ==> (consumed[k] <==> k < placed)
  {
    hide Walk, End, Consumed;
    matched := seq(|t|, _ => None);
    consumed := seq(|m|, _ => false);
    var ti, mi := 0, 0;
    while ti < |t| && mi < |m|
      invariant 0 <= ti <= |t| && 0 <= mi <= |m| && |matched| == |t| && |consumed| == |m|
      invariant matched[..ti] + Walk(t, m, ti, mi) == Walk(t, m, 0, 0)
      invariant End(t, m, ti, mi) == End(t, m, 0, 0)
      invariant forall i :: ti <= i < |t| ==> matched[i].None?
      invariant forall k :: 0 <= k < |m| ==> (consumed[k] <==> k < mi)
    {
      ghost var before := matched;
      if m[mi].name == t[ti].name {
        matched := matched[ti := Some(mi)];
        consumed := consumed[mi := true];
        OneSlotOn(t, m, ti, mi);
        mi := mi + 1;
      } else {
        OneSlotOn(t, m, ti, mi);
      }
      assert matched[..ti + 1] == before[..ti] + [matched[ti]];
      ti := ti + 1;
    }
    WalkIsOver(t, m, ti, mi);
    assert matched == matched[..ti] + matched[ti..];
    assert matched[ti..] == Walk(t, m, ti, mi);
    EndIsConsumed(t, m, ti, mi);
    EndIsConsumed(t, m, 0, 0);
    placed := mi;
  }

  lemma OneSlotOn(t: Template, m: seq<ManifestFlag>, ti: nat, mi: nat)
    requires ti < |t| && mi < |m|
    ensures m[mi].name == t[ti].name ==>
              Walk(t, m, ti, mi) == [Some(mi)] + Walk(t, m, ti + 1, mi + 1) && End(t, m, ti, mi) == End(t, m, ti + 1, mi + 1)
    ensures m[mi].name != t[ti].name ==>
              Walk(t, m, ti, mi) == [None] + Walk(t, m, ti + 1, mi) && End(t, m, ti, mi) == End(t, m, ti + 1, mi)
  {
  }

  lemma ConsumedMatch(t: Template, m: seq<ManifestFlag>, ti: nat, mi: nat)
    requires ti < |t| && mi < |m| && m[mi].name == t[ti].name
    ensures Consumed(Walk(t, m, ti, mi)) == 1 + Consumed(Walk(t, m, ti + 1, mi + 1))
  {
    WalkMatches(t, m, ti, mi);
    SlotsShift(Walk(t, m, ti, mi), 0, ti);
    SlotsShift(Walk(t, m, ti + 1, mi + 1), 0, ti + 1);
  }

  lemma ConsumedPass(t: Template, m: seq<ManifestFlag>, ti: nat, mi: nat)
    requires ti < |t| && mi <= |m| && (mi < |m| ==> m[mi].name != t[ti].name)
    ensures Consumed(Walk(t, m, ti, mi)) == Consumed(Walk(t, m, ti + 1, mi))
  {
    WalkPasses(t, m, ti, mi);
    SlotsShift(Walk(t, m, ti, mi), 0, ti);
    SlotsShift(Walk(t, m, ti + 1, mi), 0, ti + 1);
  }

  /** Once either list is exhausted no further slot is matched. */
  lemma {:induction false} WalkIsOver(t: Template, m: seq<ManifestFlag>, ti: nat, mi: nat)
    requires ti <= |t| && mi <= |m| && (ti == |t| || mi == |m|)
    ensures Consumed(Walk(t, m, ti, mi)) == 0
    ensures |Walk(t, m, ti, mi)| == |t| - ti && forall i :: 0 <= i < |t| - ti ==> Walk(t, m, ti, mi)[i].None?
    decreases |t| - ti
  {
    if ti < |t| {
      WalkIsOver(t, m, ti + 1, mi);
      WalkPasses(t, m, ti, mi);
      SlotsShift(Walk(t, m, ti, mi), 0, ti);
      SlotsShift(Walk(t, m, ti + 1, mi), 0, ti + 1);
    }
  }

  // ---- The failing family ----

  /** Two positionals in a row, the first optional and left empty: the value comes back one field
      early. */
  lemma AdjacentPositionalsShift()
    ensures var t := [TemplateFlag("", Some(""), true, false, false), TemplateFlag("", Some(""), true, true, false)];
            var v := ["", "x"];
            !Unambiguous(t, v) && Overlay(t, Bake(t, v)) == ["x", ""]
  {
    var t := [TemplateFlag("", Some(""), true, false, false), TemplateFlag("", Some(""), true, true, false)];
    var v := ["", "x"];
    assert Dropped(t, v, 0) && !Dropped(t, v, 1);
    assert NextKept(t, v, 0) == Some(1);
    assert BakeFrom(t, v, 2) == [];
    assert BakeFrom(t, v, 1) == [BakedFlag(t[1], v, 1)];
    assert Bake(t, v) == [ManifestFlag("", Some("x"), false)];
    var m := Bake(t, v);
    assert Walk(t, m, 2, 1) == [] && Walk(t, m, 1, 1) == [None] && Walk(t, m, 0, 0) == [Some(0), None];
  }
}
