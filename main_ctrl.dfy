/**
 * The main window controller (surfaceplot/controllers/main_ctrl.py): the
 * handlers that run when the user loads a CSV file, changes the sample
 * count or the interpolation method, exports, or moves a cross-section
 * line. The window holds the module-level `InterpolatedImage` and `Export`
 * objects, the file system they write to, and the surface plot.
 *
 * A handler ends normally (`Done`), at an early-return guard (`Skipped`),
 * after showing an error message for an exception it catches
 * (`Reported`), or with an exception escaping it (`Raised`).
 *
 * A signal a widget emits is returned by the widget's method and delivered
 * to its slots, in order, once that method returns. Qt calls these directly
 * connected slots at the emit itself. The order makes no difference to what
 * is shown: the slots write only the section curves and the position
 * labels, and no widget method reads those. An exception in a slot stops
 * the handler here; PyQt5 ends the application on it.
 */
module MainCtrl {
  import opened Basics
  import opened Interpolate
  import Export
  import Style
  import opened GraphItems

  datatype Outcome =
    | Done
    | Skipped
    | Reported(error: Error)
    | Raised(error: Error)

  /** `load_csv` reports NotCsvError and IndexError from reading the file; the rest propagates. */
  function ReadFailure(e: Error): (o: Outcome)
    ensures (o.Reported? || o.Raised?) && o.error == e
    ensures o.Reported? <==> e == NotCsv || e == IndexOutOfRange
  {
    if e == NotCsv || e == IndexOutOfRange then Reported(e) else Raised(e)
  }

  /** `load_csv` reports a ValueError from the interpolation; the rest propagates. */
  function InterpolationFailure(e: Error): (o: Outcome)
    ensures (o.Reported? || o.Raised?) && o.error == e
    ensures o.Reported? <==> IsValueError(e)
  {
    if IsValueError(e) then Reported(e) else Raised(e)
  }

  // ---------------------------------------------------------------------
  // The slots behind the cross-section signals
  // ---------------------------------------------------------------------

  /**
   * The label text `change_index_to_coord_h`/`_v` computes: the coordinate
   * at index `pos` (Python indexing, so a negative index counts from the
   * end), formatted by `fmt`.
   */
  function CoordText(coords: Result<seq<real>>, pos: int, fmt: real -> string): (r: Result<string>)
    ensures r.Ok? <==> coords.Ok? && -|coords.value| <= pos < |coords.value|
    ensures r.Ok? && 0 <= pos ==> r.value == fmt(coords.value[pos])
    ensures r.Ok? && pos < 0 ==> r.value == fmt(coords.value[|coords.value| + pos])
    ensures coords.Err? ==> r == Err(coords.error)
  {
    if coords.Err? then Err(coords.error)
    else
      var c := PyIndex(coords.value, pos);
      if c.None? then Err(IndexOutOfRange) else Ok(fmt(c.value))
  }

  /** A horizontal section is labelled with a y coordinate, a vertical one with an x coordinate. */
  function SignalText(s: Signal, x: Result<seq<real>>, y: Result<seq<real>>, fmt: real -> string): Result<string> {
    if s.HSection? then CoordText(y, s.pos, fmt) else CoordText(x, s.pos, fmt)
  }

  /** What the plot shows of the sections: both curves and both position labels. */
  datatype Readout = Readout(hcsCurve: Option<seq<real>>, vcsCurve: Option<seq<real>>,
                             hcsLabel: string, vcsLabel: string)

  /**
   * One signal delivered to its two slots: the plot draws the curve, then
   * the window writes the coordinate label.
   */
  function Apply(r: Readout, s: Signal, x: Result<seq<real>>, y: Result<seq<real>>,
                 fmt: real -> string): Readout
  {
    var t := SignalText(s, x, y, fmt);
    if s.HSection? then
      Readout(Some(s.data), r.vcsCurve, if t.Ok? then Style.GraphTitle(t.value) else r.hcsLabel, r.vcsLabel)
    else
      Readout(r.hcsCurve, Some(s.data), r.hcsLabel, if t.Ok? then Style.GraphTitle(t.value) else r.vcsLabel)
  }

  /** A sequence of signals delivered in order. */
  function ApplyAll(r: Readout, sig: seq<Signal>, x: Result<seq<real>>, y: Result<seq<real>>,
                    fmt: real -> string): Readout
    decreases |sig|
  {
    if sig == [] then r
    else Apply(ApplyAll(r, sig[..|sig| - 1], x, y, fmt), sig[|sig| - 1], x, y, fmt)
  }

  /** The first exception a label slot raises while the signals are delivered. */
  function FirstError(sig: seq<Signal>, x: Result<seq<real>>, y: Result<seq<real>>,
                      fmt: real -> string): Option<Error>
    decreases |sig|
  {
    if sig == [] then None
    else
      var e := FirstError(sig[..|sig| - 1], x, y, fmt);
      var t := SignalText(sig[|sig| - 1], x, y, fmt);
      if e.Some? then e else if t.Err? then Some(t.error) else None
  }

  /** One more signal: its label decides the error when none was raised before, and its slots update the readout. */
  lemma DeliverStep(r: Readout, pre: seq<Signal>, s: Signal, x: Result<seq<real>>,
                    y: Result<seq<real>>, fmt: real -> string)
    ensures var t := SignalText(s, x, y, fmt);
      FirstError(pre + [s], x, y, fmt) ==
        if FirstError(pre, x, y, fmt).Some? then FirstError(pre, x, y, fmt)
        else if t.Err? then Some(t.error) else None
    ensures ApplyAll(r, pre + [s], x, y, fmt) == Apply(ApplyAll(r, pre, x, y, fmt), s, x, y, fmt)
  {
    var sig := pre + [s];
    assert sig[..|sig| - 1] == pre && sig[|sig| - 1] == s;
  }

  /** Once a prefix of the signals has raised, the whole delivery has raised that error. */
  lemma {:induction false} FirstErrorPrefix(sig: seq<Signal>, k: nat, x: Result<seq<real>>,
                                            y: Result<seq<real>>, fmt: real -> string)
    requires k <= |sig| && FirstError(sig[..k], x, y, fmt).Some?
    ensures FirstError(sig, x, y, fmt) == FirstError(sig[..k], x, y, fmt)
    decreases |sig|
  {
    if k < |sig| {
      var init := sig[..|sig| - 1];
      assert init[..k] == sig[..k];
      FirstErrorPrefix(init, k, x, y, fmt);
    } else {
      assert sig[..k] == sig;
    }
  }

  /** Delivering two batches one after the other is delivering their concatenation. */
  lemma {:induction false} ApplyAllAppend(r: Readout, a: seq<Signal>, b: seq<Signal>,
                                          x: Result<seq<real>>, y: Result<seq<real>>, fmt: real -> string)
    ensures ApplyAll(r, a + b, x, y, fmt) == ApplyAll(ApplyAll(r, a, x, y, fmt), b, x, y, fmt)
    ensures FirstError(a, x, y, fmt).None? && FirstError(b, x, y, fmt).None? ==>
              FirstError(a + b, x, y, fmt).None?
    decreases |b|
  {
    if b == [] {
      assert a + b == a;
    } else {
      var b' := b[..|b| - 1];
      assert (a + b)[..|a + b| - 1] == a + b';
      ApplyAllAppend(r, a, b', x, y, fmt);
    }
  }

  /** The first error of two batches delivered one after the other: the first batch's, else the second's. */
  lemma {:induction false} FirstErrorAppend(a: seq<Signal>, b: seq<Signal>, x: Result<seq<real>>,
                                            y: Result<seq<real>>, fmt: real -> string)
    ensures FirstError(a + b, x, y, fmt) ==
              if FirstError(a, x, y, fmt).Some? then FirstError(a, x, y, fmt) else FirstError(b, x, y, fmt)
    decreases |b|
  {
    if FirstError(a, x, y, fmt).Some? {
      assert (a + b)[..|a|] == a;
      FirstErrorPrefix(a + b, |a|, x, y, fmt);
    } else if b == [] {
      assert a + b == a;
    } else {
      var b' := b[..|b| - 1];
      assert (a + b)[..|a + b| - 1] == a + b';
      FirstErrorAppend(a, b', x, y, fmt);
    }
  }

  /** A section read off `img`: a horizontal one at a row index, a vertical one at a column index. */
  predicate ReadOff(s: Signal, img: Grid) {
    if s.HSection? then 0 <= s.pos < Height(img) else 0 <= s.pos < Width(img)
  }

  predicate AllReadOff(sig: seq<Signal>, img: Grid) {
    forall i :: 0 <= i < |sig| ==> ReadOff(sig[i], img)
  }

  /**
   * The label slots never raise on sections read off an image whose
   * coordinate vectors have one entry per column and one per row.
   */
  lemma {:induction false} NoLabelError(sig: seq<Signal>, img: Grid, x: Result<seq<real>>,
                                        y: Result<seq<real>>, fmt: real -> string)
    requires x.Ok? && |x.value| == Width(img) && y.Ok? && |y.value| == Height(img)
    requires AllReadOff(sig, img)
    ensures FirstError(sig, x, y, fmt).None?
    decreases |sig|
  {
    if sig != [] {
      var init := sig[..|sig| - 1];
      assert AllReadOff(init, img) by {
        forall i | 0 <= i < |init| ensures ReadOff(init[i], img) {
          assert init[i] == sig[i];
        }
      }
      NoLabelError(init, img, x, y, fmt);
      assert ReadOff(sig[|sig| - 1], img);
    }
  }

  /** The sections `HCrossSection`/`VCrossSection` emit are read off the image. */
  lemma SectionsReadOff(img: Grid, h: real, v: real)
    ensures AllReadOff(SignalList(HCrossSection(Some(img), h)), img)
    ensures AllReadOff(SignalList(VCrossSection(Some(img), v)), img)
  {
  }

  lemma AppendReadOff(a: seq<Signal>, b: seq<Signal>, img: Grid)
    requires AllReadOff(a, img) && AllReadOff(b, img)
    ensures AllReadOff(a + b, img)
  {
    forall i | 0 <= i < |a + b| ensures ReadOff((a + b)[i], img) {
      if i < |a| {
        assert (a + b)[i] == a[i];
      } else {
        assert (a + b)[i] == b[i - |a|];
      }
    }
  }

  /**
   * An image whose coordinate vectors fit its columns and rows is shown,
   * re-sampled or loaded without a label slot raising: the sections under
   * the lines, those of lines that moved, and those of resetting both lines.
   */
  lemma ShownWithoutError(img: Grid, h0: real, v0: real, h: real, v: real, x: Result<seq<real>>,
                          y: Result<seq<real>>, fmt: real -> string)
    requires x.Ok? && |x.value| == Width(img) && y.Ok? && |y.value| == Height(img)
    ensures FirstError(Sections(Some(img), h0, v0), x, y, fmt).None?
    ensures FirstError(Sections(Some(img), h0, v0) + MoveSignals(Some(img), h0, v0, h, v), x, y, fmt).None?
    ensures FirstError(LoadSignals(img, h0, v0), x, y, fmt).None?
  {
    SectionsReadOff(img, h0, v0);
    SectionsReadOff(img, h, v);
    SectionsReadOff(img, 0.0, 0.0);
    var hs, vs := SignalList(HCrossSection(Some(img), h0)), SignalList(VCrossSection(Some(img), v0));
    var hm := if h == h0 then [] else SignalList(HCrossSection(Some(img), h));
    var vm := if v == v0 then [] else SignalList(VCrossSection(Some(img), v));
    var hr := if h0 == 0.0 then [] else SignalList(HCrossSection(Some(img), 0.0));
    var vr := if v0 == 0.0 then [] else SignalList(VCrossSection(Some(img), 0.0));
    AppendReadOff(hs, vs, img);
    AppendReadOff(hm, vm, img);
    AppendReadOff(hr, vr, img);
    AppendReadOff(hs + vs, hm + vm, img);
    AppendReadOff(hs + vs, hr + vr, img);
    NoLabelError(Sections(Some(img), h0, v0), img, x, y, fmt);
    NoLabelError(Sections(Some(img), h0, v0) + MoveSignals(Some(img), h0, v0, h, v), img, x, y, fmt);
    NoLabelError(LoadSignals(img, h0, v0), img, x, y, fmt);
  }

  /** The last horizontal section of a batch fixes both the horizontal curve and the Y label. */
  function LastH(sig: seq<Signal>): (s: Option<Signal>)
    ensures s.Some? ==> s.value.HSection?
    decreases |sig|
  {
    if sig == [] then None
    else if sig[|sig| - 1].HSection? then Some(sig[|sig| - 1])
    else LastH(sig[..|sig| - 1])
  }

  function LastV(sig: seq<Signal>): (s: Option<Signal>)
    ensures s.Some? ==> s.value.VSection?
    decreases |sig|
  {
    if sig == [] then None
    else if sig[|sig| - 1].VSection? then Some(sig[|sig| - 1])
    else LastV(sig[..|sig| - 1])
  }

  /**
   * Only the last section of each direction shows: after a batch without
   * errors, each curve and each label is the one of the last signal of its
   * direction, or what it was when there is none.
   */
  lemma {:induction false} ApplyAllLast(r: Readout, sig: seq<Signal>, x: Result<seq<real>>,
                                        y: Result<seq<real>>, fmt: real -> string)
    requires FirstError(sig, x, y, fmt).None?
    ensures var out := ApplyAll(r, sig, x, y, fmt);
      && (LastH(sig).None? ==> out.hcsCurve == r.hcsCurve && out.hcsLabel == r.hcsLabel)
      && (LastH(sig).Some? ==>
            && SignalText(LastH(sig).value, x, y, fmt).Ok?
            && out.hcsCurve == Some(LastH(sig).value.data)
            && out.hcsLabel == Style.GraphTitle(SignalText(LastH(sig).value, x, y, fmt).value))
      && (LastV(sig).None? ==> out.vcsCurve == r.vcsCurve && out.vcsLabel == r.vcsLabel)
      && (LastV(sig).Some? ==>
            && SignalText(LastV(sig).value, x, y, fmt).Ok?
            && out.vcsCurve == Some(LastV(sig).value.data)
            && out.vcsLabel == Style.GraphTitle(SignalText(LastV(sig).value, x, y, fmt).value))
    decreases |sig|
  {
    if sig != [] {
      var init := sig[..|sig| - 1];
      assert FirstError(init, x, y, fmt).None?;
      ApplyAllLast(r, init, x, y, fmt);
    }
  }

  // ---------------------------------------------------------------------
  // The export plan
  // ---------------------------------------------------------------------

  /** The four kinds of output, in the order of the dialog's check boxes. */
  datatype Kind = ImageKind | ImageCoordKind | HcsKind | VcsKind

  /** One file `export` asks the exporter to write. */
  datatype Step = Step(kind: Kind, suffix: string, payload: Export.Payload)

  /** The files asked for, in order, and the exception that cut the export short, if any. */
  datatype Plan = Plan(steps: seq<Step>, failure: Option<Error>)

  function ImageStep(image: Grid, m: Method): Step {
    Step(ImageKind, "_image_" + MethodValue(m), Export.SavedArray(image))
  }

  function CoordStep(image: Grid, x: seq<real>, y: seq<real>, m: Method): Result<Step> {
    var df := ImageAtCoord(image, x, y);
    if df.Err? then Err(df.error)
    else Ok(Step(ImageCoordKind, "_image_coord_" + MethodValue(m), Export.SavedFrame(df.value)))
  }

  /** Whether `np.c_` can put `curve` beside `keys`: a curve never drawn is `None`, a one-by-one column. */
  predicate Stackable(keys: seq<real>, curve: Option<seq<real>>) {
    if curve.Some? then |curve.value| == |keys| else |keys| == 1
  }

  /**
   * `to_df(np.c_[keys, curve], (name, 'value'))`. numpy refuses columns of
   * different lengths with a ValueError; a `None` curve beside a single key
   * gives one row whose value is missing.
   */
  function SectionTable(keys: seq<real>, curve: Option<seq<real>>, name: string): (r: Result<Export.Frame>)
    ensures r.Ok? <==> Stackable(keys, curve)
    ensures r.Err? ==> r.error == ShapeMismatch && IsValueError(r.error)
    ensures r.Ok? ==> !r.value.CoordImage? && r.value.indexName == name && r.value.valueName == "value"
    ensures r.Ok? && curve.Some? ==> r.value.Section? && r.value.index == keys && r.value.values == curve.value
    ensures r.Ok? && curve.None? ==> r.value.BlankSection? && [r.value.key] == keys
  {
    if curve.Some? then
      if |keys| != |curve.value| then Err(ShapeMismatch) else Ok(Export.Section(name, "value", keys, curve.value))
    else if |keys| != 1 then Err(ShapeMismatch)
    else Ok(Export.BlankSection(name, "value", keys[0]))
  }

  /**
   * The horizontal section: the table of the curve beside the x coordinates,
   * named after the y coordinate at the line's truncated position.
   */
  function HcsStep(x: seq<real>, y: seq<real>, curve: Option<seq<real>>, linePos: real, m: Method,
                   fmt: real -> string): Result<Step>
  {
    var t := SectionTable(x, curve, "x");
    if t.Err? then Err(t.error)
    else
      var c := PyIndex(y, Trunc(linePos));
      if c.None? then Err(IndexOutOfRange)
      else Ok(Step(HcsKind, "_hcs_" + fmt(c.value) + "_" + MethodValue(m), Export.SavedFrame(t.value)))
  }

  /** The vertical section: the curve beside the y coordinates, named after an x coordinate. */
  function VcsStep(x: seq<real>, y: seq<real>, curve: Option<seq<real>>, linePos: real, m: Method,
                   fmt: real -> string): Result<Step>
  {
    var t := SectionTable(y, curve, "y");
    if t.Err? then Err(t.error)
    else
      var c := PyIndex(x, Trunc(linePos));
      if c.None? then Err(IndexOutOfRange)
      else Ok(Step(VcsKind, "_vcs_" + fmt(c.value) + "_" + MethodValue(m), Export.SavedFrame(t.value)))
  }

  /** One `if selected[k]:` block: skipped when unselected or after a failure. */
  function Then(p: Plan, on: bool, r: Result<Step>): Plan {
    if p.failure.Some? || !on then p
    else if r.Err? then Plan(p.steps, Some(r.error))
    else Plan(p.steps + [r.value], None)
  }

  /** `export(selected)` as the sequence of files it asks for. */
  function ExportPlan(sel: (bool, bool, bool, bool), image: Grid, x: Result<seq<real>>, y: Result<seq<real>>,
                      hcsCurve: Option<seq<real>>, vcsCurve: Option<seq<real>>, hPos: real, vPos: real,
                      m: Method, fmt: real -> string): (p: Plan)
    ensures x.Err? ==> p == Plan([], Some(x.error))
    ensures x.Ok? && y.Err? ==> p == Plan([], Some(y.error))
    ensures |p.steps| <= 4
  {
    if x.Err? then Plan([], Some(x.error))
    else if y.Err? then Plan([], Some(y.error))
    else
      Blocks(sel, Ok(ImageStep(image, m)), CoordStep(image, x.value, y.value, m),
             HcsStep(x.value, y.value, hcsCurve, hPos, m, fmt), VcsStep(x.value, y.value, vcsCurve, vPos, m, fmt))
  }

  /** The four `if selected[k]:` blocks, each with the step it would take. */
  function Blocks(sel: (bool, bool, bool, bool), r1: Result<Step>, r2: Result<Step>, r3: Result<Step>,
                  r4: Result<Step>): Plan
  {
    Then(Then(Then(Then(Plan([], None), sel.0, r1), sel.1, r2), sel.2, r3), sel.3, r4)
  }

  /** The kinds the check boxes select, in the fixed order image, image_coord, hcs, vcs. */
  function Selected(sel: (bool, bool, bool, bool)): seq<Kind> {
    (if sel.0 then [ImageKind] else []) + (if sel.1 then [ImageCoordKind] else [])
    + (if sel.2 then [HcsKind] else []) + (if sel.3 then [VcsKind] else [])
  }

  function Kinds(steps: seq<Step>): (ks: seq<Kind>)
    ensures |ks| == |steps| && forall i :: 0 <= i < |steps| ==> ks[i] == steps[i].kind
  {
    seq(|steps|, i requires 0 <= i < |steps| => steps[i].kind)
  }

  /** Every condition under which the export runs through without an exception. */
  predicate ExportSucceeds(sel: (bool, bool, bool, bool), image: Grid, x: Result<seq<real>>, y: Result<seq<real>>,
                           hcsCurve: Option<seq<real>>, vcsCurve: Option<seq<real>>, hPos: real, vPos: real)
  {
    && x.Ok? && y.Ok?
    && (sel.1 ==> |x.value| == Width(image) && |y.value| == Height(image))
    && (sel.2 ==> Stackable(x.value, hcsCurve) && -|y.value| <= Trunc(hPos) < |y.value|)
    && (sel.3 ==> Stackable(y.value, vcsCurve) && -|x.value| <= Trunc(vPos) < |x.value|)
  }

  /**
   * One block of `export` keeps the plan's kinds equal to the boxes
   * selected so far while nothing failed, and a prefix of them after.
   */
  lemma ThenKinds(p: Plan, on: bool, r: Result<Step>, k: Kind, ks: seq<Kind>)
    requires r.Ok? ==> r.value.kind == k
    requires p.failure.None? ==> Kinds(p.steps) == ks
    requires |p.steps| <= |ks| && Kinds(p.steps) == ks[..|p.steps|]
    ensures var q := Then(p, on, r);
      var ks' := ks + (if on then [k] else []);
      && (q.failure.None? <==> p.failure.None? && (on ==> r.Ok?))
      && (q.failure.None? ==> Kinds(q.steps) == ks')
      && |q.steps| <= |ks'| && Kinds(q.steps) == ks'[..|q.steps|]
  {
    var q := Then(p, on, r);
    var ks' := ks + (if on then [k] else []);
    if q.failure.None? {
      assert Kinds(q.steps) == ks';
      assert ks'[..|q.steps|] == ks';
    } else {
      assert q.steps == p.steps;
      assert ks'[..|p.steps|] == ks[..|p.steps|];
    }
  }

  /** The export fails exactly when one of the conditions of `ExportSucceeds` is missed. */
  lemma ExportPlanSucceeds(sel: (bool, bool, bool, bool), image: Grid, x: Result<seq<real>>, y: Result<seq<real>>,
                           hcsCurve: Option<seq<real>>, vcsCurve: Option<seq<real>>, hPos: real, vPos: real,
                           m: Method, fmt: real -> string)
    ensures (ExportPlan(sel, image, x, y, hcsCurve, vcsCurve, hPos, vPos, m, fmt).failure.None?
             <==> ExportSucceeds(sel, image, x, y, hcsCurve, vcsCurve, hPos, vPos))
  {
  }

  /**
   * A horizontal section never drawn is still exported when the data has a
   * single x coordinate: `np.c_[x, None]` stacks it into one row whose value
   * is missing, and the line's row names the file.
   */
  lemma ExportBlankSection(image: Grid, x0: real, y: seq<real>, vcsCurve: Option<seq<real>>,
                           hPos: real, vPos: real, m: Method, fmt: real -> string)
    requires -|y| <= Trunc(hPos) < |y|
    ensures var p := ExportPlan((false, false, true, false), image, Ok([x0]), Ok(y), None, vcsCurve, hPos, vPos, m, fmt);
      && p.failure.None? && |p.steps| == 1
      && p.steps[0].kind == HcsKind
      && p.steps[0].payload == Export.SavedFrame(Export.BlankSection("x", "value", x0))
  {
  }

  /** Blocks run one after the other. */
  function ThenAll(bs: seq<(bool, Result<Step>)>): Plan
    decreases |bs|
  {
    if bs == [] then Plan([], None) else Then(ThenAll(bs[..|bs| - 1]), bs[|bs| - 1].0, bs[|bs| - 1].1)
  }

  /** The prefix one block longer is that block run after the shorter prefix. */
  lemma ThenAllStep(bs: seq<(bool, Result<Step>)>, i: nat)
    requires i < |bs|
    ensures ThenAll(bs[..i + 1]) == Then(ThenAll(bs[..i]), bs[i].0, bs[i].1)
  {
    assert bs[..i + 1][..i] == bs[..i];
  }

  lemma BlocksInOrder(sel: (bool, bool, bool, bool), r1: Result<Step>, r2: Result<Step>, r3: Result<Step>,
                      r4: Result<Step>)
    ensures Blocks(sel, r1, r2, r3, r4) == ThenAll([(sel.0, r1), (sel.1, r2), (sel.2, r3), (sel.3, r4)])
  {
    var bs := [(sel.0, r1), (sel.1, r2), (sel.2, r3), (sel.3, r4)];
    assert bs[..3][..2][..1][..0] == [];
    assert ThenAll(bs[..1]) == Then(Plan([], None), sel.0, r1);
    assert bs[..3][..2] == bs[..2];
    assert ThenAll(bs[..2]) == Then(ThenAll(bs[..1]), sel.1, r2);
    assert ThenAll(bs[..3]) == Then(ThenAll(bs[..2]), sel.2, r3);
  }

  /** The blocks keep the selected order whatever the steps they take. */
  lemma BlocksOrder(sel: (bool, bool, bool, bool), r1: Result<Step>, r2: Result<Step>, r3: Result<Step>,
                    r4: Result<Step>)
    requires r1.Ok? ==> r1.value.kind == ImageKind
    requires r2.Ok? ==> r2.value.kind == ImageCoordKind
    requires r3.Ok? ==> r3.value.kind == HcsKind
    requires r4.Ok? ==> r4.value.kind == VcsKind
    ensures var p := Blocks(sel, r1, r2, r3, r4);
      && |p.steps| <= |Selected(sel)|
      && Kinds(p.steps) == Selected(sel)[..|p.steps|]
      && (p.failure.None? ==> Kinds(p.steps) == Selected(sel))
  {
    var p0 := Plan([], None);
    var p1 := Then(p0, sel.0, r1);
    var p2 := Then(p1, sel.1, r2);
    var p3 := Then(p2, sel.2, r3);
    var s1 := [] + (if sel.0 then [ImageKind] else []);
    var s2 := s1 + (if sel.1 then [ImageCoordKind] else []);
    var s3 := s2 + (if sel.2 then [HcsKind] else []);
    ThenKinds(p0, sel.0, r1, ImageKind, []);
    ThenKinds(p1, sel.1, r2, ImageCoordKind, s1);
    ThenKinds(p2, sel.2, r3, HcsKind, s2);
    ThenKinds(p3, sel.3, r4, VcsKind, s3);
    assert s3 + (if sel.3 then [VcsKind] else []) == Selected(sel);
  }

  /**
   * The export asks for one file per selected box, in the fixed order,
   * and stops at the first exception: the kinds written are always a
   * prefix of the selected kinds, all of them when the export succeeds.
   */
  lemma ExportPlanOrder(sel: (bool, bool, bool, bool), image: Grid, x: Result<seq<real>>, y: Result<seq<real>>,
                        hcsCurve: Option<seq<real>>, vcsCurve: Option<seq<real>>, hPos: real, vPos: real,
                        m: Method, fmt: real -> string)
    ensures var p := ExportPlan(sel, image, x, y, hcsCurve, vcsCurve, hPos, vPos, m, fmt);
      && |p.steps| <= |Selected(sel)|
      && Kinds(p.steps) == Selected(sel)[..|p.steps|]
      && (p.failure.None? ==> Kinds(p.steps) == Selected(sel))
  {
    if x.Ok? && y.Ok? {
      BlocksOrder(sel, Ok(ImageStep(image, m)), CoordStep(image, x.value, y.value, m),
                  HcsStep(x.value, y.value, hcsCurve, hPos, m, fmt), VcsStep(x.value, y.value, vcsCurve, vPos, m, fmt));
    }
  }

  /**
   * The file name suffix of a step in an export with coordinates `x` and
   * `y`: its kind's tag, then (for a section) the coordinate under the
   * line, then the interpolation method.
   */
  predicate SuffixFits(st: Step, x: seq<real>, y: seq<real>, hPos: real, vPos: real, m: Method,
                       fmt: real -> string)
  {
    && (st.kind == ImageKind ==> st.suffix == "_image_" + MethodValue(m))
    && (st.kind == ImageCoordKind ==> st.suffix == "_image_coord_" + MethodValue(m))
    && (st.kind == HcsKind ==>
          && PyIndex(y, Trunc(hPos)).Some?
          && st.suffix == "_hcs_" + fmt(PyIndex(y, Trunc(hPos)).value) + "_" + MethodValue(m))
    && (st.kind == VcsKind ==>
          && PyIndex(x, Trunc(vPos)).Some?
          && st.suffix == "_vcs_" + fmt(PyIndex(x, Trunc(vPos)).value) + "_" + MethodValue(m))
  }

  /** A block adds at most its own step, so the suffixes keep fitting. */
  lemma ThenFits(p: Plan, on: bool, r: Result<Step>, x: seq<real>, y: seq<real>, hPos: real, vPos: real,
                 m: Method, fmt: real -> string)
    requires forall i :: 0 <= i < |p.steps| ==> SuffixFits(p.steps[i], x, y, hPos, vPos, m, fmt)
    requires r.Ok? ==> SuffixFits(r.value, x, y, hPos, vPos, m, fmt)
    ensures var q := Then(p, on, r);
      forall i :: 0 <= i < |q.steps| ==> SuffixFits(q.steps[i], x, y, hPos, vPos, m, fmt)
  {
  }

  /**
   * Every file name suffix starts with its kind's tag and ends with the
   * interpolation method: `_image_<m>`, `_image_coord_<m>`,
   * `_hcs_<coordinate>_<m>` and `_vcs_<coordinate>_<m>`.
   */
  lemma ExportSuffixes(sel: (bool, bool, bool, bool), image: Grid, x: Result<seq<real>>, y: Result<seq<real>>,
                       hcsCurve: Option<seq<real>>, vcsCurve: Option<seq<real>>, hPos: real, vPos: real,
                       m: Method, fmt: real -> string)
    ensures var p := ExportPlan(sel, image, x, y, hcsCurve, vcsCurve, hPos, vPos, m, fmt);
      forall i :: 0 <= i < |p.steps| ==>
        x.Ok? && y.Ok? && SuffixFits(p.steps[i], x.value, y.value, hPos, vPos, m, fmt)
  {
    if x.Ok? && y.Ok? {
      var r1 := Ok(ImageStep(image, m));
      var r2 := CoordStep(image, x.value, y.value, m);
      var r3 := HcsStep(x.value, y.value, hcsCurve, hPos, m, fmt);
      var r4 := VcsStep(x.value, y.value, vcsCurve, vPos, m, fmt);
      var p0 := Plan([], None);
      var p1 := Then(p0, sel.0, r1);
      var p2 := Then(p1, sel.1, r2);
      var p3 := Then(p2, sel.2, r3);
      ThenFits(p0, sel.0, r1, x.value, y.value, hPos, vPos, m, fmt);
      ThenFits(p1, sel.1, r2, x.value, y.value, hPos, vPos, m, fmt);
      ThenFits(p2, sel.2, r3, x.value, y.value, hPos, vPos, m, fmt);
      ThenFits(p3, sel.3, r4, x.value, y.value, hPos, vPos, m, fmt);
    }
  }

  // ---------------------------------------------------------------------
  // The main window
  // ---------------------------------------------------------------------

  /**
   * The times `datetime.now()` returns during one export. Each block that
   * writes a file reads the clock itself, and each kind of file is written
   * by one block, so each kind has its own reading.
   */
  datatype Readings = Readings(image: Export.DateTime, imageCoord: Export.DateTime,
                               hcs: Export.DateTime, vcs: Export.DateTime)
  {
    /** The reading taken by the block that writes files of kind `k`. */
    function At(k: Kind): Export.DateTime {
      match k
      case ImageKind => image
      case ImageCoordKind => imageCoord
      case HcsKind => hcs
      case VcsKind => vcs
    }
  }

  predicate ValidReadings(rd: Readings) {
    && Export.ValidDateTime(rd.image) && Export.ValidDateTime(rd.imageCoord)
    && Export.ValidDateTime(rd.hcs) && Export.ValidDateTime(rd.vcs)
  }

  /** The file the exporter writes for one step, stamped with the reading of the step's block. */
  function WriteOf(ex: Export.Exporter, rd: Readings, st: Step): Export.Written
    reads ex
    requires ValidReadings(rd) && ex.CanExport()
  {
    Export.Written(ex.TargetPath(rd.At(st.kind), st.suffix), st.payload)
  }

  /** The files the exporter writes for a list of steps, in order. */
  function Writes(ex: Export.Exporter, rd: Readings, steps: seq<Step>): seq<Export.Written>
    reads ex
    requires ValidReadings(rd)
    decreases |steps|
  {
    if !ex.CanExport() || steps == [] then []
    else Writes(ex, rd, steps[..|steps| - 1]) + [WriteOf(ex, rd, steps[|steps| - 1])]
  }

  /** A step more writes one file more, when the exporter can write at all. */
  lemma WritesAppend(ex: Export.Exporter, rd: Readings, steps: seq<Step>, s: Step)
    requires ValidReadings(rd)
    ensures Writes(ex, rd, steps + [s]) ==
              Writes(ex, rd, steps) + (if ex.CanExport() then [WriteOf(ex, rd, s)] else [])
  {
    assert (steps + [s])[..|steps|] == steps;
  }

  /**
   * An exporter without a file name or a directory writes nothing;
   * otherwise it writes one file per step, in order, each stamped with the
   * time its own block read.
   */
  lemma {:induction false} WritesFiles(ex: Export.Exporter, rd: Readings, steps: seq<Step>)
    requires ValidReadings(rd)
    ensures !ex.CanExport() ==> Writes(ex, rd, steps) == []
    ensures ex.CanExport() ==> |Writes(ex, rd, steps)| == |steps|
    ensures ex.CanExport() ==> forall i :: 0 <= i < |steps| ==>
              Writes(ex, rd, steps)[i] ==
                Export.Written(ex.TargetPath(rd.At(steps[i].kind), steps[i].suffix), steps[i].payload)
    decreases |steps|
  {
    if ex.CanExport() && steps != [] {
      var init := steps[..|steps| - 1];
      WritesFiles(ex, rd, init);
      assert Writes(ex, rd, steps) == Writes(ex, rd, init) + [WriteOf(ex, rd, steps[|steps| - 1])];
      forall i | 0 <= i < |steps|
        ensures Writes(ex, rd, steps)[i] == WriteOf(ex, rd, steps[i])
      {
        if i < |init| {
          assert steps[i] == init[i];
        }
      }
    }
  }

  /** The files and directories after the blocks of plan `p` ran, starting from `w0` and `d0`. */
  ghost predicate AfterPlan(ex: Export.Exporter, rd: Readings, p: Plan, w0: seq<Export.Written>,
                            d0: set<string>, w: seq<Export.Written>, d: set<string>)
    reads ex
    requires ValidReadings(rd)
  {
    && w == w0 + Writes(ex, rd, p.steps)
    && d == d0 + (if ex.CanExport() && |p.steps| > 0 then {ex.rootDir.value} else {})
  }

  /** A step appended to the plan's steps adds its file and the root directory, when the exporter can write. */
  lemma AddWrite(ex: Export.Exporter, rd: Readings, steps: seq<Step>, s: Step, w0: seq<Export.Written>,
                 d0: set<string>, w: seq<Export.Written>, d: set<string>,
                 w': seq<Export.Written>, d': set<string>)
    requires ValidReadings(rd) && AfterPlan(ex, rd, Plan(steps, None), w0, d0, w, d)
    requires ex.CanExport() ==> w' == w + [WriteOf(ex, rd, s)] && d' == d + {ex.rootDir.value}
    requires !ex.CanExport() ==> w' == w && d' == d
    ensures AfterPlan(ex, rd, Plan(steps + [s], None), w0, d0, w', d')
  {
    WritesAppend(ex, rd, steps, s);
    if ex.CanExport() {
      var ws, f := Writes(ex, rd, steps), WriteOf(ex, rd, s);
      assert w' == (w0 + ws) + [f] == w0 + (ws + [f]);
    }
  }

  /** One more block keeps the record of what was written in step with the plan. */
  lemma PerformWrites(ex: Export.Exporter, rd: Readings, p: Plan, on: bool, r: Result<Step>,
                      w0: seq<Export.Written>, d0: set<string>, w: seq<Export.Written>, d: set<string>,
                      w': seq<Export.Written>, d': set<string>)
    requires ValidReadings(rd) && AfterPlan(ex, rd, p, w0, d0, w, d)
    requires p.failure.None? && on && r.Ok? && ex.CanExport() ==>
               w' == w + [WriteOf(ex, rd, r.value)] && d' == d + {ex.rootDir.value}
    requires !(p.failure.None? && on && r.Ok? && ex.CanExport()) ==> w' == w && d' == d
    ensures AfterPlan(ex, rd, Then(p, on, r), w0, d0, w', d')
  {
    if p.failure.None? && on && r.Ok? {
      AddWrite(ex, rd, p.steps, r.value, w0, d0, w, d, w', d');
    }
  }

  class MainWindow {
    const interp: InterpolatedImage
    const exporter: Export.Exporter
    const fs: Export.FileSystem
    const plot: SurfacePlot
    /** The text of the method selector. */
    var selectedMethod: Method

    /**
     * The parts are consistent; the sample count stays in the spin box's
     * range, so the grids held and the image shown have at least one pixel;
     * and an image is shown only after data has been loaded.
     */
    ghost predicate Valid()
      reads this, interp, plot, plot.colormap, plot.colormap.xAxis, plot.colormap.yAxis
    {
      && InterpValid() && plot.Valid()
      && (plot.colormap.image.Some? ==>
            && interp.originalData.Some?
            && Height(plot.colormap.image.value) > 0 && Width(plot.colormap.image.value) > 0)
    }

    /** The interpolation side of `Valid`: a sample count of at least 1 and grids with a pixel. */
    ghost predicate InterpValid()
      reads this, interp
    {
      && interp.Valid()
      && interp.resolution >= 1
      && (interp.xGrid.Some? ==> Height(interp.xGrid.value) > 0 && Width(interp.xGrid.value) > 0)
    }

    /**
     * `MainWindow()`, over the module-level `InterpolatedImage()` (sample
     * count 10, no grids yet): the selector starts at the first method;
     * nothing is shown.
     */
    constructor (interp: InterpolatedImage, exporter: Export.Exporter, fs: Export.FileSystem, plot: SurfacePlot)
      requires interp.Valid() && interp.resolution >= 1 && interp.xGrid.None?
      requires plot.Valid() && plot.colormap.image.None?
      ensures Valid()
      ensures this.interp == interp && this.exporter == exporter && this.fs == fs && this.plot == plot
      ensures selectedMethod == Linear
    {
      this.interp, this.exporter, this.fs, this.plot := interp, exporter, fs, plot;
      selectedMethod := Linear;
    }

    /** The coordinate vectors held have one entry per column and one per row of `img`. */
    predicate CoordsFit(img: Grid)
      reads this, interp
    {
      && interp.InterpolatedXCoord().Ok? && |interp.InterpolatedXCoord().value| == Width(img)
      && interp.InterpolatedYCoord().Ok? && |interp.InterpolatedYCoord().value| == Height(img)
    }

    /**
     * What `set_filepath` leaves from a `.csv` file with table `contents`:
     * its last three columns are the data, and the grids are built from
     * them when `make_xy_grid` succeeds and are still `xg0` and `yg0` when
     * it raises.
     */
    predicate HoldsFile(contents: Interpolate.Frame, xg0: Option<Grid>, yg0: Option<Grid>)
      requires WellFormed(contents)
      reads this, interp
    {
      FileHeld(contents, interp.resolution, interp.originalData, interp.xGrid, interp.yGrid, xg0, yg0)
    }

    /** The section curves and labels on screen. */
    function Shown(): Readout
      reads this, plot, plot.titleLabel
    {
      Readout(plot.hcsCurve, plot.vcsCurve, plot.titleLabel.hcs, plot.titleLabel.vcs)
    }

    /** `change_index_to_coord_h(_, pos)`: the Y label shows the y coordinate at `pos`. */
    method ChangeIndexToCoordH(pos: int, fmt: real -> string) returns (err: Option<Error>)
      modifies plot.titleLabel
      ensures var t := CoordText(interp.InterpolatedYCoord(), pos, fmt);
        && (t.Err? ==> err == Some(t.error) && plot.titleLabel.hcs == old(plot.titleLabel.hcs))
        && (t.Ok? ==> err == None && plot.titleLabel.hcs == Style.GraphTitle(t.value))
      ensures plot.titleLabel.vcs == old(plot.titleLabel.vcs)
      ensures plot.titleLabel.title == old(plot.titleLabel.title)
    {
      var t := CoordText(interp.InterpolatedYCoord(), pos, fmt);
      if t.Err? {
        return Some(t.error);
      }
      plot.titleLabel.SetText(t.value, "h");
      err := None;
    }

    /** `change_index_to_coord_v(_, pos)`: the X label shows the x coordinate at `pos`. */
    method ChangeIndexToCoordV(pos: int, fmt: real -> string) returns (err: Option<Error>)
      modifies plot.titleLabel
      ensures var t := CoordText(interp.InterpolatedXCoord(), pos, fmt);
        && (t.Err? ==> err == Some(t.error) && plot.titleLabel.vcs == old(plot.titleLabel.vcs))
        && (t.Ok? ==> err == None && plot.titleLabel.vcs == Style.GraphTitle(t.value))
      ensures plot.titleLabel.hcs == old(plot.titleLabel.hcs)
      ensures plot.titleLabel.title == old(plot.titleLabel.title)
    {
      var t := CoordText(interp.InterpolatedXCoord(), pos, fmt);
      if t.Err? {
        return Some(t.error);
      }
      plot.titleLabel.SetText(t.value, "v");
      err := None;
    }

    /** One signal: the plot draws the section, then the window writes its label. */
    method DeliverOne(s: Signal, fmt: real -> string) returns (err: Option<Error>)
      modifies plot, plot.titleLabel
      ensures var t := SignalText(s, interp.InterpolatedXCoord(), interp.InterpolatedYCoord(), fmt);
        err == if t.Err? then Some(t.error) else None
      ensures err.None? ==>
                Shown() == Apply(old(Shown()), s, interp.InterpolatedXCoord(), interp.InterpolatedYCoord(), fmt)
      ensures plot.titleLabel.title == old(plot.titleLabel.title)
      ensures plot.hcsCursor == old(plot.hcsCursor) && plot.vcsCursor == old(plot.vcsCursor)
    {
      if s.HSection? {
        plot.PlotHCrossSection(s.data);
        err := ChangeIndexToCoordH(s.pos, fmt);
      } else {
        plot.PlotVCrossSection(s.data);
        err := ChangeIndexToCoordV(s.pos, fmt);
      }
    }

    /**
     * Delivers emitted signals to their slots in order, stopping at the
     * first slot that raises.
     */
    method Deliver(sig: seq<Signal>, fmt: real -> string) returns (err: Option<Error>)
      modifies plot, plot.titleLabel
      ensures err == FirstError(sig, interp.InterpolatedXCoord(), interp.InterpolatedYCoord(), fmt)
      ensures err.None? ==>
                Shown() == ApplyAll(old(Shown()), sig, interp.InterpolatedXCoord(), interp.InterpolatedYCoord(), fmt)
      ensures plot.titleLabel.title == old(plot.titleLabel.title)
      ensures plot.hcsCursor == old(plot.hcsCursor) && plot.vcsCursor == old(plot.vcsCursor)
    {
      var x, y := interp.InterpolatedXCoord(), interp.InterpolatedYCoord();
      var i := 0;
      while i < |sig|
        invariant 0 <= i <= |sig|
        invariant FirstError(sig[..i], x, y, fmt).None?
        invariant Shown() == ApplyAll(old(Shown()), sig[..i], x, y, fmt)
        invariant plot.titleLabel.title == old(plot.titleLabel.title)
        invariant plot.hcsCursor == old(plot.hcsCursor) && plot.vcsCursor == old(plot.vcsCursor)
      {
        assert sig[..i + 1] == sig[..i] + [sig[i]];
        DeliverStep(old(Shown()), sig[..i], sig[i], x, y, fmt);
        err := DeliverOne(sig[i], fmt);
        if err.Some? {
          FirstErrorPrefix(sig, i + 1, x, y, fmt);
          return;
        }
        i := i + 1;
      }
      assert sig[..i] == sig;
      err := None;
    }

    /**
     * `change_interpolate_num(points)`: the new sample count is always
     * stored; with an image shown, the grids are rebuilt, the image is
     * re-interpolated and shown re-sampled, and both lines keep their
     * place relative to the image height.
     */
    method ChangeInterpolateNum(points: int, ip: Interpolator, fmt: real -> string) returns (outcome: Outcome)
      requires Valid() && 1 <= points <= 100
      modifies interp, plot, plot.titleLabel, plot.colormap, plot.colormap.xAxis, plot.colormap.yAxis
      ensures Valid()
      ensures interp.resolution == points
      ensures interp.originalData == old(interp.originalData) && selectedMethod == old(selectedMethod)
      ensures plot.titleLabel.title == old(plot.titleLabel.title)
      ensures old(plot.colormap.image).None? ==>
                && outcome == Skipped
                && interp.xGrid == old(interp.xGrid) && interp.yGrid == old(interp.yGrid)
                && unchanged(plot, plot.titleLabel, plot.colormap, plot.colormap.xAxis, plot.colormap.yAxis)
      ensures old(plot.colormap.image).Some? ==>
                var g := Grids(interp.originalData.value, points);
                && (g.Err? ==>
                      && outcome == Raised(g.error)
                      && interp.xGrid == old(interp.xGrid) && interp.yGrid == old(interp.yGrid)
                      && unchanged(plot, plot.titleLabel, plot.colormap, plot.colormap.xAxis, plot.colormap.yAxis))
                && (g.Ok? ==> interp.xGrid == Some(g.value.0) && interp.yGrid == Some(g.value.1))
                && (g.Ok? && interp.CalcGriddata(ip, selectedMethod).Err? ==>
                      && outcome == Raised(interp.CalcGriddata(ip, selectedMethod).error)
                      && unchanged(plot, plot.titleLabel, plot.colormap, plot.colormap.xAxis, plot.colormap.yAxis))
                && (g.Ok? && interp.CalcGriddata(ip, selectedMethod).Ok? ==> outcome == Done)
      ensures outcome == Done ==>
                && old(plot.colormap.image).Some?
                && interp.CalcGriddata(ip, selectedMethod).Ok?
                && plot.colormap.image == Some(interp.CalcGriddata(ip, selectedMethod).value)
                && plot.colormap.xAxis.points == Width(plot.colormap.image.value)
                && plot.colormap.yAxis.points == Height(plot.colormap.image.value)
                && plot.colormap.xAxis.rangeMin == old(plot.colormap.xAxis.rangeMin)
                && plot.colormap.xAxis.rangeMax == old(plot.colormap.xAxis.rangeMax)
                && plot.colormap.yAxis.rangeMin == old(plot.colormap.yAxis.rangeMin)
                && plot.colormap.yAxis.rangeMax == old(plot.colormap.yAxis.rangeMax)
                && var ratio := Height(plot.colormap.image.value) as real / Height(old(plot.colormap.image).value) as real;
                && plot.colormap.hcsPos == ScaledPos(ratio, old(plot.colormap.hcsPos))
                && plot.colormap.vcsPos == ScaledPos(ratio, old(plot.colormap.vcsPos))
                && var h0, v0 := old(plot.colormap.hcsPos), old(plot.colormap.vcsPos);
                && Shown() == ApplyAll(old(Shown()), Sections(plot.colormap.image, h0, v0)
                                                     + MoveSignals(plot.colormap.image, h0, v0, plot.colormap.hcsPos, plot.colormap.vcsPos),
                                       interp.InterpolatedXCoord(), interp.InterpolatedYCoord(), fmt)
      ensures outcome == Done || outcome == Skipped || outcome.Raised?
    {
      interp.resolution := points;
      if plot.colormap.image.None? {
        return Skipped;
      }
      var err := interp.MakeXYGrid();
      if err.Some? {
        return Raised(err.value);
      }
      GridsNonEmpty(interp.originalData.value, points);
      var image := interp.CalcGriddata(ip, selectedMethod);
      if image.Err? {
        return Raised(image.error);
      }
      var img := image.value;
      // The image has the shape of the new grids, so no label slot can raise.
      assert CoordsFit(img);
      err := Resample(img, fmt);
      outcome := Done;
    }

    /**
     * `resize_image(img)`: the image is replaced, both lines are scaled by
     * the ratio of the heights, and the sections are delivered: those
     * under the old positions, then those of each line that moved.
     */
    method Resample(img: Grid, fmt: real -> string) returns (err: Option<Error>)
      requires Valid() && Height(img) > 0 && Width(img) > 0 && interp.originalData.Some?
      requires plot.colormap.image.Some? && Height(plot.colormap.image.value) > 0
      modifies plot, plot.titleLabel, plot.colormap, plot.colormap.xAxis, plot.colormap.yAxis
      ensures Valid()
      ensures plot.titleLabel.title == old(plot.titleLabel.title)
      ensures plot.colormap.image == Some(img)
      ensures plot.colormap.xAxis.points == Width(img) && plot.colormap.yAxis.points == Height(img)
      ensures plot.colormap.xAxis.rangeMin == old(plot.colormap.xAxis.rangeMin)
      ensures plot.colormap.xAxis.rangeMax == old(plot.colormap.xAxis.rangeMax)
      ensures plot.colormap.yAxis.rangeMin == old(plot.colormap.yAxis.rangeMin)
      ensures plot.colormap.yAxis.rangeMax == old(plot.colormap.yAxis.rangeMax)
      ensures var ratio := Height(img) as real / Height(old(plot.colormap.image).value) as real;
        && plot.colormap.hcsPos == ScaledPos(ratio, old(plot.colormap.hcsPos))
        && plot.colormap.vcsPos == ScaledPos(ratio, old(plot.colormap.vcsPos))
      ensures var h0, v0 := old(plot.colormap.hcsPos), old(plot.colormap.vcsPos);
        var sig := Sections(Some(img), h0, v0) + MoveSignals(Some(img), h0, v0, plot.colormap.hcsPos, plot.colormap.vcsPos);
        && err == FirstError(sig, interp.InterpolatedXCoord(), interp.InterpolatedYCoord(), fmt)
        && (err.None? ==>
              Shown() == ApplyAll(old(Shown()), sig, interp.InterpolatedXCoord(), interp.InterpolatedYCoord(), fmt))
      ensures CoordsFit(img) ==> err.None?
    {
      ghost var h0, v0 := plot.colormap.hcsPos, plot.colormap.vcsPos;
      var sig := plot.colormap.ResizeImage(img);
      if CoordsFit(img) {
        ShownWithoutError(img, h0, v0, plot.colormap.hcsPos, plot.colormap.vcsPos,
                          interp.InterpolatedXCoord(), interp.InterpolatedYCoord(), fmt);
      }
      err := Deliver(sig, fmt);
    }

    /**
     * `change_interpolate_method(m)`: the selector shows `m`; with data
     * loaded, the image is interpolated again with `m` and shown, the
     * lines and the axis ranges staying where they are.
     */
    method ChangeInterpolateMethod(m: Method, ip: Interpolator, fmt: real -> string) returns (outcome: Outcome)
      requires Valid()
      modifies this, plot, plot.titleLabel, plot.colormap, plot.colormap.xAxis, plot.colormap.yAxis
      ensures Valid()
      ensures selectedMethod == m
      ensures plot.titleLabel.title == old(plot.titleLabel.title)
      ensures interp.originalData.None? ==>
                outcome == Skipped
                && unchanged(plot, plot.titleLabel, plot.colormap, plot.colormap.xAxis, plot.colormap.yAxis)
      ensures interp.originalData.Some? && interp.CalcGriddata(ip, m).Err? ==>
                && outcome == Raised(interp.CalcGriddata(ip, m).error)
                && unchanged(plot, plot.titleLabel, plot.colormap, plot.colormap.xAxis, plot.colormap.yAxis)
      ensures interp.originalData.Some? && interp.CalcGriddata(ip, m).Ok? ==> outcome == Done
      ensures outcome == Done ==>
                && interp.CalcGriddata(ip, m).Ok?
                && plot.colormap.image == Some(interp.CalcGriddata(ip, m).value)
                && plot.colormap.xAxis.points == Width(plot.colormap.image.value)
                && plot.colormap.yAxis.points == Height(plot.colormap.image.value)
                && plot.colormap.hcsPos == old(plot.colormap.hcsPos)
                && plot.colormap.vcsPos == old(plot.colormap.vcsPos)
                && plot.colormap.xAxis.rangeMin == old(plot.colormap.xAxis.rangeMin)
                && plot.colormap.xAxis.rangeMax == old(plot.colormap.xAxis.rangeMax)
                && plot.colormap.yAxis.rangeMin == old(plot.colormap.yAxis.rangeMin)
                && plot.colormap.yAxis.rangeMax == old(plot.colormap.yAxis.rangeMax)
                && Shown() == ApplyAll(old(Shown()), Sections(plot.colormap.image, plot.colormap.hcsPos, plot.colormap.vcsPos),
                                       interp.InterpolatedXCoord(), interp.InterpolatedYCoord(), fmt)
      ensures outcome == Done || outcome == Skipped || outcome.Raised?
    {
      selectedMethod := m;
      if interp.originalData.None? {
        return Skipped;
      }
      var image := interp.CalcGriddata(ip, m);
      if image.Err? {
        return Raised(image.error);
      }
      var img := image.value;
      // An interpolated image has the shape of the grids held, so no label slot can raise.
      assert CoordsFit(img);
      var err := DisplayImage(img, None, None, fmt);
      outcome := Done;
    }

    /**
     * `set_image(img, xrange, yrange)`: the image is replaced, each axis
     * takes the range given (or keeps its own), the lines stay, and the
     * sections under the lines are delivered.
     */
    method DisplayImage(img: Grid, xrange: Option<(real, real)>, yrange: Option<(real, real)>, fmt: real -> string)
      returns (err: Option<Error>)
      requires Valid() && Height(img) > 0 && Width(img) > 0 && interp.originalData.Some?
      modifies plot, plot.titleLabel, plot.colormap, plot.colormap.xAxis, plot.colormap.yAxis
      ensures Valid()
      ensures plot.titleLabel.title == old(plot.titleLabel.title)
      ensures plot.colormap.image == Some(img)
      ensures plot.colormap.hcsPos == old(plot.colormap.hcsPos) && plot.colormap.vcsPos == old(plot.colormap.vcsPos)
      ensures plot.colormap.xAxis.points == Width(img) && plot.colormap.yAxis.points == Height(img)
      ensures xrange.Some? ==>
                plot.colormap.xAxis.rangeMin == xrange.value.0 && plot.colormap.xAxis.rangeMax == xrange.value.1
      ensures xrange.None? ==>
                && plot.colormap.xAxis.rangeMin == old(plot.colormap.xAxis.rangeMin)
                && plot.colormap.xAxis.rangeMax == old(plot.colormap.xAxis.rangeMax)
      ensures yrange.Some? ==>
                plot.colormap.yAxis.rangeMin == yrange.value.0 && plot.colormap.yAxis.rangeMax == yrange.value.1
      ensures yrange.None? ==>
                && plot.colormap.yAxis.rangeMin == old(plot.colormap.yAxis.rangeMin)
                && plot.colormap.yAxis.rangeMax == old(plot.colormap.yAxis.rangeMax)
      ensures var sig := Sections(Some(img), plot.colormap.hcsPos, plot.colormap.vcsPos);
        && err == FirstError(sig, interp.InterpolatedXCoord(), interp.InterpolatedYCoord(), fmt)
        && (err.None? ==>
              Shown() == ApplyAll(old(Shown()), sig, interp.InterpolatedXCoord(), interp.InterpolatedYCoord(), fmt))
      ensures CoordsFit(img) ==> err.None?
    {
      var sig := plot.SetImage(img, xrange, yrange);
      if CoordsFit(img) {
        ShownWithoutError(img, plot.colormap.hcsPos, plot.colormap.vcsPos, 0.0, 0.0,
                          interp.InterpolatedXCoord(), interp.InterpolatedYCoord(), fmt);
      }
      err := Deliver(sig, fmt);
    }

    /** `show_export_dialog`: the dialog opens only while an image is shown. */
    method ShowExportDialog() returns (outcome: Outcome)
      ensures plot.colormap.image.None? ==> outcome == Reported(NoData)
      ensures plot.colormap.image.Some? ==> outcome == Done
    {
      if plot.colormap.image.None? {
        return Reported(NoData);
      }
      outcome := Done;
    }

    /**
     * One `if selected[k]:` block: when selected and nothing failed
     * before, it raises the step's exception or hands the step's payload
     * to `export_ndarray` (an array) or `export_dataframe` (a table), which
     * reads the clock for the file name.
     */
    method Perform(failed: Option<Error>, on: bool, r: Result<Step>, rd: Readings) returns (failed': Option<Error>)
      requires ValidReadings(rd)
      modifies fs
      ensures failed' == Then(Plan([], failed), on, r).failure
      ensures failed.None? && on && r.Ok? && exporter.CanExport() ==>
                && fs.written == old(fs.written) + [WriteOf(exporter, rd, r.value)]
                && fs.dirs == old(fs.dirs) + {exporter.rootDir.value}
      ensures !(failed.None? && on && r.Ok? && exporter.CanExport()) ==>
                fs.written == old(fs.written) && fs.dirs == old(fs.dirs)
    {
      if failed.Some? || !on {
        return failed;
      }
      if r.Err? {
        return Some(r.error);
      }
      failed' := None;
      var now := rd.At(r.value.kind);
      match r.value.payload
      case SavedArray(a) => exporter.ExportNdarray(a, r.value.suffix, now, fs);
      case SavedFrame(df) => exporter.ExportDataframe(df, r.value.suffix, now, fs);
    }

    /** The blocks of `export`, run one after the other, each reading the clock when it writes. */
    method RunBlocks(bs: seq<(bool, Result<Step>)>, rd: Readings) returns (failed: Option<Error>)
      requires ValidReadings(rd)
      modifies fs
      ensures failed == ThenAll(bs).failure
      ensures AfterPlan(exporter, rd, ThenAll(bs), old(fs.written), old(fs.dirs), fs.written, fs.dirs)
    {
      assert old(fs.written) + Writes(exporter, rd, []) == old(fs.written);
      failed := None;
      var i := 0;
      while i < |bs|
        invariant 0 <= i <= |bs|
        invariant failed == ThenAll(bs[..i]).failure
        invariant AfterPlan(exporter, rd, ThenAll(bs[..i]), old(fs.written), old(fs.dirs), fs.written, fs.dirs)
      {
        ThenAllStep(bs, i);
        ghost var w, d := fs.written, fs.dirs;
        failed := Perform(failed, bs[i].0, bs[i].1, rd);
        PerformWrites(exporter, rd, ThenAll(bs[..i]), bs[i].0, bs[i].1, old(fs.written), old(fs.dirs),
                      w, d, fs.written, fs.dirs);
        i := i + 1;
      }
      assert bs[..i] == bs;
    }

    /**
     * `export(selected)`, run from the dialog (so an image is shown), with
     * `rd` the clock readings of its writes: the exporter is asked for the
     * files of `ExportPlan`, in order, and writes them only when it has a
     * file name and a directory.
     */
    method ExportSelected(sel: (bool, bool, bool, bool), rd: Readings, fmt: real -> string) returns (outcome: Outcome)
      requires Valid() && plot.colormap.image.Some? && ValidReadings(rd)
      modifies fs
      ensures var p := ExportPlan(sel, plot.colormap.image.value, interp.InterpolatedXCoord(),
                                  interp.InterpolatedYCoord(), plot.hcsCurve, plot.vcsCurve,
                                  plot.colormap.hcsPos, plot.colormap.vcsPos, selectedMethod, fmt);
        && fs.written == old(fs.written) + Writes(exporter, rd, p.steps)
        && fs.dirs == old(fs.dirs) + (if exporter.CanExport() && |p.steps| > 0 then {exporter.rootDir.value} else {})
        && outcome == (if p.failure.Some? then Raised(p.failure.value) else Done)
    {
      var image := plot.colormap.image.value;
      var x := interp.InterpolatedXCoord();
      if x.Err? {
        return Raised(x.error);
      }
      var y := interp.InterpolatedYCoord();
      match y
      case Err(e) => return Raised(e);
      case Ok(_) =>
      var r1 := Ok(ImageStep(image, selectedMethod));
      var r2 := CoordStep(image, x.value, y.value, selectedMethod);
      var r3 := HcsStep(x.value, y.value, plot.hcsCurve, plot.colormap.hcsPos, selectedMethod, fmt);
      var r4 := VcsStep(x.value, y.value, plot.vcsCurve, plot.colormap.vcsPos, selectedMethod, fmt);
      BlocksInOrder(sel, r1, r2, r3, r4);
      var failed := RunBlocks([(sel.0, r1), (sel.1, r2), (sel.2, r3), (sel.3, r4)], rd);
      outcome := if failed.Some? then Raised(failed.value) else Done;
    }

    /** `hcs_line.setPos(0)` then `vcs_line.setPos(0)`, each followed by the slots it triggers. */
    method ResetLines(img: Grid, fmt: real -> string) returns (err: Option<Error>)
      requires Valid() && plot.colormap.image == Some(img)
      modifies plot, plot.titleLabel, plot.colormap
      ensures Valid()
      ensures plot.titleLabel.title == old(plot.titleLabel.title) && plot.colormap.image == Some(img)
      ensures var sig := ResetSignals(img, old(plot.colormap.hcsPos), old(plot.colormap.vcsPos));
        err == FirstError(sig, interp.InterpolatedXCoord(), interp.InterpolatedYCoord(), fmt)
      ensures err.None? ==>
                && plot.colormap.hcsPos == 0.0 && plot.colormap.vcsPos == 0.0
                && var sig := ResetSignals(img, old(plot.colormap.hcsPos), old(plot.colormap.vcsPos));
                && Shown() == ApplyAll(old(Shown()), sig, interp.InterpolatedXCoord(), interp.InterpolatedYCoord(), fmt)
    {
      ghost var x, y := interp.InterpolatedXCoord(), interp.InterpolatedYCoord();
      ghost var r0 := Shown();
      var sigH := plot.colormap.MoveHcsLine(0.0);
      err := Deliver(sigH, fmt);
      ghost var sigV0 := if old(plot.colormap.vcsPos) == 0.0 then [] else SignalList(VCrossSection(Some(img), 0.0));
      assert ResetSignals(img, old(plot.colormap.hcsPos), old(plot.colormap.vcsPos)) == sigH + sigV0;
      FirstErrorAppend(sigH, sigV0, x, y, fmt);
      if err.Some? {
        return;
      }
      ghost var r1 := Shown();
      var sigV := plot.colormap.MoveVcsLine(0.0);
      err := Deliver(sigV, fmt);
      if err.Some? {
        return;
      }
      TwoBatches(sigH, sigV, r0, r1, Shown(), x, y, fmt);
    }

    /**
     * The end of a complete load: the new image with the data's ranges on
     * the axes, then both lines moved to 0. Each emitted batch goes to the
     * slots before the next step, as the signals are connected.
     */
    method ShowNewImage(img: Grid, xr: (real, real), yr: (real, real), fmt: real -> string) returns (err: Option<Error>)
      requires Valid() && Height(img) > 0 && Width(img) > 0 && interp.originalData.Some?
      modifies plot, plot.titleLabel, plot.colormap, plot.colormap.xAxis, plot.colormap.yAxis
      ensures Valid()
      ensures plot.titleLabel.title == old(plot.titleLabel.title)
      ensures var sig := LoadSignals(img, old(plot.colormap.hcsPos), old(plot.colormap.vcsPos));
        err == FirstError(sig, interp.InterpolatedXCoord(), interp.InterpolatedYCoord(), fmt)
      ensures CoordsFit(img) ==> err.None?
      ensures err.None? ==>
                && plot.colormap.image == Some(img)
                && plot.colormap.hcsPos == 0.0 && plot.colormap.vcsPos == 0.0
                && plot.colormap.xAxis.points == Width(img) && plot.colormap.yAxis.points == Height(img)
                && plot.colormap.xAxis.rangeMin == xr.0 && plot.colormap.xAxis.rangeMax == xr.1
                && plot.colormap.yAxis.rangeMin == yr.0 && plot.colormap.yAxis.rangeMax == yr.1
                && var sig := LoadSignals(img, old(plot.colormap.hcsPos), old(plot.colormap.vcsPos));
                && Shown() == ApplyAll(old(Shown()), sig, interp.InterpolatedXCoord(), interp.InterpolatedYCoord(), fmt)
    {
      ghost var x, y := interp.InterpolatedXCoord(), interp.InterpolatedYCoord();
      ghost var h0, v0 := plot.colormap.hcsPos, plot.colormap.vcsPos;
      ghost var r0 := Shown();
      if CoordsFit(img) {
        ShownWithoutError(img, h0, v0, 0.0, 0.0, x, y, fmt);
      }
      err := DisplayImage(img, Some(xr), Some(yr), fmt);
      FirstErrorAppend(Sections(Some(img), h0, v0), ResetSignals(img, h0, v0), x, y, fmt);
      if err.Some? {
        return;
      }
      ghost var r1 := Shown();
      err := ResetLines(img, fmt);
      if err.Some? {
        return;
      }
      TwoBatches(Sections(Some(img), h0, v0), ResetSignals(img, h0, v0), r0, r1, Shown(), x, y, fmt);
    }

    /**
     * The screen after a complete load of the data now held, with `img`
     * its interpolation: the image, both lines at 0, each axis sized to the
     * image and spanning the data's coordinate range, the curves through
     * row 0 and column 0, and each label showing the first coordinate of its
     * axis.
     */
    ghost predicate ShowsLoaded(img: Grid, fmt: real -> string)
      reads this, interp, plot, plot.titleLabel, plot.colormap, plot.colormap.xAxis, plot.colormap.yAxis
    {
      && interp.Valid() && interp.originalData.Some?
      && var d := interp.originalData.value;
      && var x, y := interp.InterpolatedXCoord(), interp.InterpolatedYCoord();
      && CoordRange(d, "x").Ok? && CoordRange(d, "y").Ok?
      && plot.colormap.image == Some(img)
      && plot.colormap.hcsPos == 0.0 && plot.colormap.vcsPos == 0.0
      && plot.colormap.xAxis.points == Width(img) && plot.colormap.yAxis.points == Height(img)
      && plot.colormap.xAxis.rangeMin == CoordRange(d, "x").value.0
      && plot.colormap.xAxis.rangeMax == CoordRange(d, "x").value.1
      && plot.colormap.yAxis.rangeMin == CoordRange(d, "y").value.0
      && plot.colormap.yAxis.rangeMax == CoordRange(d, "y").value.1
      && Height(img) > 0 && Width(img) > 0
      && plot.hcsCurve == Some(img[0]) && plot.vcsCurve == Some(Column(img, 0))
      && x.Ok? && |x.value| > 0 && y.Ok? && |y.value| > 0
      && plot.titleLabel.hcs == Style.GraphTitle(fmt(y.value[0]))
      && plot.titleLabel.vcs == Style.GraphTitle(fmt(x.value[0]))
    }

    /**
     * The second half of `load_csv`, once the data and the grids are in
     * place: interpolate, then show the image with the data's ranges and
     * the lines at 0. An interpolation ValueError is reported and leaves
     * the old image on screen.
     */
    method ShowLoaded(ip: Interpolator, fmt: real -> string) returns (outcome: Outcome)
      requires Valid() && interp.originalData.Some? && interp.xGrid.Some?
      modifies plot, plot.titleLabel, plot.colormap, plot.colormap.xAxis, plot.colormap.yAxis
      ensures Valid()
      ensures plot.titleLabel.title == old(plot.titleLabel.title)
      ensures var c, d := interp.CalcGriddata(ip, selectedMethod), interp.originalData.value;
        && (c.Err? ==>
              && plot.colormap.image == old(plot.colormap.image)
              && outcome == InterpolationFailure(c.error))
        && (c.Ok? && CoordRange(d, "x").Err? ==>
              plot.colormap.image == old(plot.colormap.image) && outcome == Raised(CoordRange(d, "x").error))
        && (c.Ok? && CoordRange(d, "x").Ok? && CoordRange(d, "y").Err? ==>
              plot.colormap.image == old(plot.colormap.image) && outcome == Raised(CoordRange(d, "y").error))
        && (c.Ok? && CoordRange(d, "x").Ok? && CoordRange(d, "y").Ok? ==>
              outcome == Done && ShowsLoaded(c.value, fmt))
      ensures outcome == Done ==>
                interp.CalcGriddata(ip, selectedMethod).Ok? && ShowsLoaded(interp.CalcGriddata(ip, selectedMethod).value, fmt)
      ensures outcome.Reported? ==> interp.CalcGriddata(ip, selectedMethod).Err?
      ensures outcome != Skipped
    {
      var image := interp.CalcGriddata(ip, selectedMethod);
      if image.Err? {
        return InterpolationFailure(image.error);
      }
      var img := image.value;
      var xrange := interp.GetCoordRange("x");
      if xrange.Err? {
        return Raised(xrange.error);
      }
      var yrange := interp.GetCoordRange("y");
      if yrange.Err? {
        return Raised(yrange.error);
      }
      ghost var r0 := Shown();
      ghost var h0, v0 := plot.colormap.hcsPos, plot.colormap.vcsPos;
      // The image has the shape of the grids held, so no label slot can raise.
      assert CoordsFit(img);
      var err := ShowNewImage(img, xrange.value, yrange.value, fmt);
      LoadShowsOrigin(r0, img, h0, v0, interp.InterpolatedXCoord(), interp.InterpolatedYCoord(), fmt);
      outcome := Done;
    }

    /**
     * `interpolate.set_filepath(filepath)` inside `load_csv`'s first `try`:
     * `failed` is what the load ends with when reading fails, NotCsvError
     * and IndexError being caught and reported and any other error
     * propagating.
     */
    method ReadCsv(path: string, contents: Interpolate.Frame) returns (failed: Option<Outcome>)
      requires Valid() && WellFormed(contents)
      modifies interp
      ensures Valid() && interp.resolution == old(interp.resolution)
      ensures Suffix(path) != ".csv" ==> failed == Some(ReadFailure(NotCsv)) && unchanged(interp)
      ensures Suffix(path) == ".csv" ==>
                var e := GridsError(LastColumns(contents, 3), interp.resolution);
                && HoldsFile(contents, old(interp.xGrid), old(interp.yGrid))
                && (e.Some? ==> failed == Some(ReadFailure(e.value)))
                && (e.None? ==> failed == None)
      ensures failed.None? ==>
                && Suffix(path) == ".csv" && interp.originalData == Some(LastColumns(contents, 3))
                && GridsError(LastColumns(contents, 3), interp.resolution).None? && interp.xGrid.Some?
    {
      var err := interp.SetFilepath(path, contents);
      if Suffix(path) == ".csv" && err.None? {
        GridsNonEmpty(LastColumns(contents, 3), interp.resolution);
      }
      failed := if err.Some? then Some(ReadFailure(err.value)) else None;
    }

    /** The file's stem becomes the plot title and the exporter's file name. */
    method ShowName(path: string)
      modifies exporter, plot.titleLabel
      ensures plot.titleLabel.title == Style.GraphTitle(Stem(path))
      ensures exporter.filename == Some(Export.ReplaceString(Stem(path)))
      ensures plot.titleLabel.hcs == old(plot.titleLabel.hcs) && plot.titleLabel.vcs == old(plot.titleLabel.vcs)
      ensures exporter.rootDir == old(exporter.rootDir)
    {
      var filename := Stem(path);
      plot.titleLabel.SetTitle(filename);
      exporter.AssignFilename(filename);
    }

    /**
     * `load_csv()` once the dialog returned the CSV filter. A failure to
     * read changes nothing on screen; an interpolation failure comes after
     * the title and the export name changed and the data was replaced, and
     * leaves the old image on screen.
     */
    method LoadFile(path: string, contents: Interpolate.Frame, ip: Interpolator, fmt: real -> string)
      returns (outcome: Outcome)
      requires Valid() && WellFormed(contents)
      modifies interp, exporter, plot, plot.titleLabel, plot.colormap, plot.colormap.xAxis, plot.colormap.yAxis
      ensures Valid()
      ensures selectedMethod == old(selectedMethod) && interp.resolution == old(interp.resolution)
      ensures exporter.rootDir == old(exporter.rootDir)
      ensures Suffix(path) != ".csv" ==>
                outcome == ReadFailure(NotCsv)
                && unchanged(interp, exporter, plot, plot.titleLabel, plot.colormap,
                             plot.colormap.xAxis, plot.colormap.yAxis)
      ensures Suffix(path) == ".csv" ==> HoldsFile(contents, old(interp.xGrid), old(interp.yGrid))
      ensures var e := GridsError(LastColumns(contents, 3), interp.resolution);
              Suffix(path) == ".csv" && e.Some? ==>
                outcome == ReadFailure(e.value)
                && unchanged(exporter, plot, plot.titleLabel, plot.colormap, plot.colormap.xAxis, plot.colormap.yAxis)
      ensures Suffix(path) == ".csv" && GridsError(LastColumns(contents, 3), interp.resolution).None? ==>
                && plot.titleLabel.title == Style.GraphTitle(Stem(path))
                && exporter.filename == Some(Export.ReplaceString(Stem(path)))
                && (interp.CalcGriddata(ip, selectedMethod).Err? ==>
                      && plot.colormap.image == old(plot.colormap.image)
                      && outcome == InterpolationFailure(interp.CalcGriddata(ip, selectedMethod).error))
                && (interp.CalcGriddata(ip, selectedMethod).Ok? ==>
                      outcome == Done && ShowsLoaded(interp.CalcGriddata(ip, selectedMethod).value, fmt))
      ensures outcome == Done ==>
                && Suffix(path) == ".csv"
                && interp.CalcGriddata(ip, selectedMethod).Ok?
                && ShowsLoaded(interp.CalcGriddata(ip, selectedMethod).value, fmt)
      ensures outcome != Skipped
    {
      var failed := ReadCsv(path, contents);
      if failed.Some? {
        return failed.value;
      }
      outcome := ShowFile(path, ip, fmt);
    }

    /** `load_csv()` after reading: the name is shown, then the interpolated image. */
    method ShowFile(path: string, ip: Interpolator, fmt: real -> string) returns (outcome: Outcome)
      requires Valid() && interp.originalData.Some? && interp.xGrid.Some?
      requires GridsError(interp.originalData.value, interp.resolution).None?
      modifies exporter, plot, plot.titleLabel, plot.colormap, plot.colormap.xAxis, plot.colormap.yAxis
      ensures Valid()
      ensures exporter.rootDir == old(exporter.rootDir)
      ensures plot.titleLabel.title == Style.GraphTitle(Stem(path))
      ensures exporter.filename == Some(Export.ReplaceString(Stem(path)))
      ensures interp.CalcGriddata(ip, selectedMethod).Err? ==>
                && plot.colormap.image == old(plot.colormap.image)
                && outcome == InterpolationFailure(interp.CalcGriddata(ip, selectedMethod).error)
      ensures interp.CalcGriddata(ip, selectedMethod).Ok? ==>
                outcome == Done && ShowsLoaded(interp.CalcGriddata(ip, selectedMethod).value, fmt)
      ensures outcome == Done ==>
                interp.CalcGriddata(ip, selectedMethod).Ok? && ShowsLoaded(interp.CalcGriddata(ip, selectedMethod).value, fmt)
      ensures outcome != Skipped
    {
      ShowName(path);
      GridsCoordRanges(interp.originalData.value, interp.resolution);
      outcome := ShowLoaded(ip, fmt);
    }

    /**
     * `load_csv()`, with the dialog's answer (`path`, `filter`) and the
     * table the CSV reader returns for the file passed in. A filter other
     * than `*csv` is a cancel and changes nothing. A complete load shows
     * the new image with the data's coordinate ranges, puts both lines at 0
     * and so shows row 0 and column 0 with the first coordinate of each
     * axis.
     */
    method LoadCsv(path: string, filter: string, contents: Interpolate.Frame, ip: Interpolator,
                   fmt: real -> string) returns (outcome: Outcome)
      requires Valid() && WellFormed(contents)
      modifies interp, exporter, plot, plot.titleLabel, plot.colormap, plot.colormap.xAxis, plot.colormap.yAxis
      ensures Valid()
      ensures filter != "*csv" ==>
                outcome == Skipped
                && unchanged(interp, exporter, plot, plot.titleLabel, plot.colormap,
                             plot.colormap.xAxis, plot.colormap.yAxis)
      ensures filter == "*csv" ==> outcome != Skipped
      ensures filter == "*csv" && Suffix(path) != ".csv" ==>
                outcome == ReadFailure(NotCsv)
                && unchanged(interp, exporter, plot, plot.titleLabel, plot.colormap,
                             plot.colormap.xAxis, plot.colormap.yAxis)
      ensures selectedMethod == old(selectedMethod) && interp.resolution == old(interp.resolution)
      ensures exporter.rootDir == old(exporter.rootDir)
      ensures filter == "*csv" && Suffix(path) == ".csv" ==> HoldsFile(contents, old(interp.xGrid), old(interp.yGrid))
      ensures var e := GridsError(LastColumns(contents, 3), interp.resolution);
              filter == "*csv" && Suffix(path) == ".csv" && e.Some? ==>
                outcome == ReadFailure(e.value)
                && unchanged(exporter, plot, plot.titleLabel, plot.colormap, plot.colormap.xAxis, plot.colormap.yAxis)
      ensures filter == "*csv" && Suffix(path) == ".csv" && GridsError(LastColumns(contents, 3), interp.resolution).None? ==>
                && plot.titleLabel.title == Style.GraphTitle(Stem(path))
                && exporter.filename == Some(Export.ReplaceString(Stem(path)))
                && (interp.CalcGriddata(ip, selectedMethod).Err? ==>
                      && plot.colormap.image == old(plot.colormap.image)
                      && outcome == InterpolationFailure(interp.CalcGriddata(ip, selectedMethod).error))
                && (interp.CalcGriddata(ip, selectedMethod).Ok? ==>
                      outcome == Done && ShowsLoaded(interp.CalcGriddata(ip, selectedMethod).value, fmt))
      ensures outcome == Done ==>
                && filter == "*csv" && Suffix(path) == ".csv"
                && interp.CalcGriddata(ip, selectedMethod).Ok?
                && ShowsLoaded(interp.CalcGriddata(ip, selectedMethod).value, fmt)
    {
      if filter != "*csv" {
        return Skipped;
      }
      outcome := LoadFile(path, contents, ip, fmt);
    }
  }

  /**
   * `MainWindow.HoldsFile` on the values it reads: the data is the last
   * three columns of `contents`, and the grids are `make_xy_grid`'s at
   * `resolution` when those can be built and `xg0`, `yg0` otherwise.
   */
  predicate FileHeld(contents: Interpolate.Frame, resolution: int, data: Option<Interpolate.Frame>,
                     xg: Option<Grid>, yg: Option<Grid>, xg0: Option<Grid>, yg0: Option<Grid>)
    requires WellFormed(contents)
  {
    var d := LastColumns(contents, 3);
    && data == Some(d)
    && (if GridsError(d, resolution).None? then
          && Grids(d, resolution).Ok?
          && xg == Some(Grids(d, resolution).value.0) && yg == Some(Grids(d, resolution).value.1)
        else xg == xg0 && yg == yg0)
  }

  /**
   * The signals a complete load emits: the sections under the lines where
   * they were, then the section at 0 of each line that had to move there.
   */
  function LoadSignals(img: Grid, h0: real, v0: real): seq<Signal> {
    Sections(Some(img), h0, v0) + ResetSignals(img, h0, v0)
  }

  /** Moving both lines to 0: a line already there emits nothing. */
  function ResetSignals(img: Grid, h0: real, v0: real): seq<Signal> {
    (if h0 == 0.0 then [] else SignalList(HCrossSection(Some(img), 0.0)))
    + (if v0 == 0.0 then [] else SignalList(VCrossSection(Some(img), 0.0)))
  }

  /** The last horizontal section of a concatenation comes from its second part when that has one. */
  lemma {:induction false} LastAppend(a: seq<Signal>, b: seq<Signal>)
    ensures LastH(a + b) == if LastH(b).Some? then LastH(b) else LastH(a)
    ensures LastV(a + b) == if LastV(b).Some? then LastV(b) else LastV(a)
    decreases |b|
  {
    if b == [] {
      assert a + b == a;
    } else {
      assert (a + b)[..|a + b| - 1] == a + b[..|b| - 1];
      LastAppend(a, b[..|b| - 1]);
    }
  }

  /** Two batches delivered one after the other, without errors, are their concatenation delivered. */
  lemma TwoBatches(s1: seq<Signal>, s2: seq<Signal>, r0: Readout, r1: Readout, r2: Readout,
                   x: Result<seq<real>>, y: Result<seq<real>>, fmt: real -> string)
    requires FirstError(s1, x, y, fmt).None? && r1 == ApplyAll(r0, s1, x, y, fmt)
    requires FirstError(s2, x, y, fmt).None? && r2 == ApplyAll(r1, s2, x, y, fmt)
    ensures FirstError(s1 + s2, x, y, fmt).None?
    ensures r2 == ApplyAll(r0, s1 + s2, x, y, fmt)
  {
    ApplyAllAppend(r0, s1, s2, x, y, fmt);
  }

  /** A list of at most one signal. */
  lemma LastOfOne(s: Option<Signal>)
    ensures LastH(SignalList(s)) == if s.Some? && s.value.HSection? then s else None
    ensures LastV(SignalList(s)) == if s.Some? && s.value.VSection? then s else None
  {
    if s.Some? {
      assert SignalList(s)[..0] == [];
    }
  }

  /** The last sections a complete load emits are row 0 and column 0. */
  lemma LoadLastSections(img: Grid, h0: real, v0: real)
    requires Height(img) > 0 && Width(img) > 0
    ensures LastH(LoadSignals(img, h0, v0)) == Some(HSection(img[0], 0))
    ensures LastV(LoadSignals(img, h0, v0)) == Some(VSection(Column(img, 0), 0))
  {
    var hs := SignalList(HCrossSection(Some(img), h0));
    var vs := SignalList(VCrossSection(Some(img), v0));
    var hm := if h0 == 0.0 then [] else SignalList(HCrossSection(Some(img), 0.0));
    var vm := if v0 == 0.0 then [] else SignalList(VCrossSection(Some(img), 0.0));
    assert LoadSignals(img, h0, v0) == hs + vs + hm + vm;
    LastOfOne(HCrossSection(Some(img), h0));
    LastOfOne(VCrossSection(Some(img), v0));
    LastOfOne(HCrossSection(Some(img), 0.0));
    LastOfOne(VCrossSection(Some(img), 0.0));
    LastAppend(hs, vs);
    LastAppend(hs + vs, hm);
    LastAppend(hs + vs + hm, vm);
    HCrossSectionNearZero(img, 0.0);
  }

  /** After a complete load the curves show row 0 and column 0 of the new image. */
  lemma LoadShowsOrigin(r: Readout, img: Grid, h0: real, v0: real, x: Result<seq<real>>,
                        y: Result<seq<real>>, fmt: real -> string)
    requires Height(img) > 0 && Width(img) > 0
    requires FirstError(LoadSignals(img, h0, v0), x, y, fmt).None?
    ensures ApplyAll(r, LoadSignals(img, h0, v0), x, y, fmt).hcsCurve == Some(img[0])
    ensures ApplyAll(r, LoadSignals(img, h0, v0), x, y, fmt).vcsCurve == Some(Column(img, 0))
    ensures y.Ok? && |y.value| > 0
              && ApplyAll(r, LoadSignals(img, h0, v0), x, y, fmt).hcsLabel == Style.GraphTitle(fmt(y.value[0]))
    ensures x.Ok? && |x.value| > 0
              && ApplyAll(r, LoadSignals(img, h0, v0), x, y, fmt).vcsLabel == Style.GraphTitle(fmt(x.value[0]))
  {
    ApplyAllLast(r, LoadSignals(img, h0, v0), x, y, fmt);
    LoadLastSections(img, h0, v0);
  }
}
