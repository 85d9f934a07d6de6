/** Handling notices over any sequence of window scans (native/startup.c:14-17, 55-79, 98-105, 164-177, 212-251).

    What a scan sees of a window is free.  The specification is a function on the state; `Scanner` changes the fields in
    place.  The log keeps what was observed of windows and what was posted to them, in order.
 */
module NoticeScan {
  import opened Base

  type Window = nat

  datatype Check = Unchecked | Checked | Indeterminate

  /** One scan of a recognised trade notice: whether the earlier window is still visible, and what the controls say. */
  datatype Scan = Scan(earlierVisible: bool, enabled: bool, check: Check, checkEnabled: bool, clicked: bool,
                       confirmed: bool)

  datatype Event = Hidden(window: Window) | ReadBack(window: Window, check: Check) | Clicked(window: Window)
                 | Confirmed(window: Window)

  datatype Trade = Trade(window: Option<Window>, phase: nat, noticed: nat, clicks: nat, checked: nat, confirmed: nat,
                         closed: nat, log: seq<Event>)

  const FRESH := Trade(None, 0, 0, 0, 0, 0, 0, [])

  function Noted(s: Trade, e: Event): Trade {
    s.(log := s.log + [e])
  }

  /** Moving on to another window; the earlier one was seen to be hidden. */
  function Adopted(s: Trade, w: Window): Trade {
    if s.window == Some(w) then s
    else
      s.(window := Some(w), phase := 0,
         log := if s.window.Some? then s.log + [Hidden(s.window.value)] else s.log)
  }

  function Confirming(s: Trade, w: Window, scan: Scan): Trade {
    var t := if s.phase == 1 then s.(checked := s.checked + 1, phase := 2) else s;
    if scan.confirmed then t.(confirmed := t.confirmed + 1, phase := 3, log := t.log + [Confirmed(w)]) else t
  }

  function Scanned(s: Trade, w: Window, scan: Scan): Trade {
    if s.window.Some? && s.window.value != w && scan.earlierVisible then s
    else
      var a := Adopted(s, w);
      if a.phase == 3 || !scan.enabled then a
      else
        var t := Noted(a, ReadBack(w, scan.check));
        if t.phase == 0 && scan.check == Unchecked then
          if scan.checkEnabled && scan.clicked
          then t.(noticed := t.noticed + 1, clicks := t.clicks + 1, phase := 1, log := t.log + [Clicked(w)])
          else t
        else if scan.check != Checked then t
        else Confirming(if t.phase == 0 then t.(noticed := t.noticed + 1, phase := 1) else t, w, scan)
  }

  function Reset(s: Trade, visible: bool): Trade {
    if s.window.None? || visible then s
    else
      s.(closed := if s.phase == 3 then s.closed + 1 else s.closed, window := None, phase := 0,
         log := s.log + [Hidden(s.window.value)])
  }

  // ----- In plain fields -----

  /** What one scan posts and counts. A window is only looked at once the earlier one is hidden, and not after its
      confirmation; the box is clicked only before anything else and while it reads unchecked; the confirmation is
      posted only while it reads checked. */
  lemma ScanIsExact(s: Trade, w: Window, scan: Scan)
    requires s.phase <= 3
    ensures var t := Scanned(s, w, scan);
            var phase := if s.window == Some(w) then s.phase else 0;
            var live := !(s.window.Some? && s.window != Some(w) && scan.earlierVisible) && phase != 3 && scan.enabled;
            var click := live && phase == 0 && scan.check == Unchecked && scan.checkEnabled && scan.clicked;
            var read := live && scan.check == Checked;
            && t.clicks == s.clicks + (if click then 1 else 0)
            && t.noticed == s.noticed + (if click || (read && phase == 0) then 1 else 0)
            && t.checked == s.checked + (if read && phase < 2 then 1 else 0)
            && t.confirmed == s.confirmed + (if read && scan.confirmed then 1 else 0) && t.closed == s.closed
            && (s.window.Some? && s.window != Some(w) && scan.earlierVisible ==> t == s)
            && (!(s.window.Some? && s.window != Some(w) && scan.earlierVisible) ==>
                  && t.window == Some(w)
                  && t.phase == (if read then (if scan.confirmed then 3 else 2) else if click then 1 else phase))
  {
  }

  /** A window seen hidden is forgotten, and counted as closed exactly when it had been confirmed. */
  lemma ResetIsExact(s: Trade, visible: bool)
    ensures var t := Reset(s, visible); var hidden := s.window.Some? && !visible;
            && (!hidden ==> t == s)
            && (hidden ==> t.window.None? && t.phase == 0 && t.closed == s.closed + (if s.phase == 3 then 1 else 0)
                           && t.confirmed == s.confirmed && t.noticed == s.noticed && t.checked == s.checked
                           && t.clicks == s.clicks)
  {
  }

  datatype Step = ScanStep(window: Window, scan: Scan) | ResetStep(visible: bool)

  function Apply(s: Trade, step: Step): Trade {
    match step
    case ScanStep(window, scan) => Scanned(s, window, scan)
    case ResetStep(visible) => Reset(s, visible)
  }

  function After(s: Trade, steps: seq<Step>): Trade {
    if steps == [] then s else Apply(After(s, steps[..|steps| - 1]), steps[|steps| - 1])
  }

  // ----- What the log may contain -----

  /** No such event for the window since it was last seen hidden. */
  predicate FreeOf(log: seq<Event>, e: Event) {
    log == [] || log[|log| - 1] == Hidden(e.window) || (log[|log| - 1] != e && FreeOf(log[..|log| - 1], e))
  }

  /** Every click and every confirmation was the first since the window was last hidden, and followed its read-back. */
  predicate Guarded(log: seq<Event>) {
    log == [] ||
    var n := |log| - 1;
    && Guarded(log[..n])
    && (log[n].Clicked? ==> FreeOf(log[..n], log[n]) && n > 0 && log[n - 1] == ReadBack(log[n].window, Unchecked))
    && (log[n].Confirmed? ==> FreeOf(log[..n], log[n]) && n > 0 && log[n - 1] == ReadBack(log[n].window, Checked))
  }

  ghost predicate Staged(s: Trade) {
    && s.phase <= 3 && (s.window.None? ==> s.phase == 0)
    && s.closed + (if s.phase == 3 then 1 else 0) <= s.confirmed
    && s.confirmed + (if s.phase == 2 then 1 else 0) <= s.checked
    && s.checked + (if s.phase == 1 then 1 else 0) <= s.noticed
    && s.clicks <= s.noticed
    && Guarded(s.log)
    && (forall w: Window :: s.window != Some(w) || s.phase == 0 ==> FreeOf(s.log, Clicked(w)))
    && (forall w: Window :: s.window != Some(w) || s.phase != 3 ==> FreeOf(s.log, Confirmed(w)))
  }

  lemma LogGrows(log: seq<Event>, e: Event)
    ensures (log + [e])[..|log|] == log && (log + [e])[|log|] == e
  {
  }

  lemma HiddenKeeps(log: seq<Event>, w: Window)
    ensures Guarded(log + [Hidden(w)]) == Guarded(log)
    ensures forall f: Event :: f.Clicked? || f.Confirmed? ==>
              (FreeOf(log + [Hidden(w)], f) <==> f.window == w || FreeOf(log, f))
  {
    LogGrows(log, Hidden(w));
  }

  lemma AdoptKeepsStaged(s: Trade, w: Window)
    requires Staged(s)
    ensures Staged(Adopted(s, w)) && Adopted(s, w).window == Some(w)
  {
    if s.window.Some? && s.window != Some(w) {
      HiddenKeeps(s.log, s.window.value);
    }
  }

  lemma ReadKeepsStaged(s: Trade, w: Window, check: Check)
    requires Staged(s)
    ensures Staged(Noted(s, ReadBack(w, check)))
  {
    LogGrows(s.log, ReadBack(w, check));
  }

  /** Appending a click or a confirmation of one window. */
  lemma PostKeepsLog(log: seq<Event>, e: Event)
    requires Guarded(log) && FreeOf(log, e) && log != []
    requires (e.Clicked? && log[|log| - 1] == ReadBack(e.window, Unchecked))
             || (e.Confirmed? && log[|log| - 1] == ReadBack(e.window, Checked))
    ensures Guarded(log + [e])
    ensures forall f: Event :: f != e && FreeOf(log, f) && !f.Hidden? ==> FreeOf(log + [e], f)
  {
    LogGrows(log, e);
  }

  lemma ConfirmKeepsStaged(s: Trade, w: Window, scan: Scan)
    requires Staged(s) && s.window == Some(w) && (s.phase == 1 || s.phase == 2)
    requires s.log != [] && s.log[|s.log| - 1] == ReadBack(w, Checked)
    ensures Staged(Confirming(s, w, scan))
  {
    if scan.confirmed { PostKeepsLog(s.log, Confirmed(w)); }
  }

  lemma ScanKeepsStaged(s: Trade, w: Window, scan: Scan)
    requires Staged(s)
    ensures Staged(Scanned(s, w, scan))
  {
    hide Guarded, FreeOf, Adopted, Confirming;
    AdoptKeepsStaged(s, w);
    var a := Adopted(s, w);
    ReadKeepsStaged(a, w, scan.check);
    var t := Noted(a, ReadBack(w, scan.check));
    if a.phase != 3 && scan.enabled {
      if t.phase == 0 && scan.check == Unchecked {
        PostKeepsLog(t.log, Clicked(w));
      } else if scan.check == Checked {
        ConfirmKeepsStaged(if t.phase == 0 then t.(noticed := t.noticed + 1, phase := 1) else t, w, scan);
      }
    }
  }

  lemma ResetKeepsStaged(s: Trade, visible: bool)
    requires Staged(s)
    ensures Staged(Reset(s, visible))
  {
    if s.window.Some? && !visible {
      var after := Reset(s, visible);
      HiddenKeeps(s.log, s.window.value);
      forall w: Window ensures FreeOf(after.log, Clicked(w)) && FreeOf(after.log, Confirmed(w)) {
        assert s.window == Some(w) || FreeOf(s.log, Clicked(w));
        assert s.window == Some(w) || FreeOf(s.log, Confirmed(w));
      }
    }
  }

  lemma {:induction false} ScansAreStaged(steps: seq<Step>)
    ensures Staged(After(FRESH, steps))
  {
    if steps != [] {
      var n := |steps| - 1;
      ScansAreStaged(steps[..n]);
      match steps[n]
      case ScanStep(w, scan) => ScanKeepsStaged(After(FRESH, steps[..n]), w, scan);
      case ResetStep(visible) => ResetKeepsStaged(After(FRESH, steps[..n]), visible);
    }
  }

  lemma {:induction false} FreeMeansHidden(log: seq<Event>, e: Event, i: nat)
    requires FreeOf(log, e) && i < |log| && log[i] == e && !e.Hidden?
    ensures exists k :: i < k < |log| && log[k] == Hidden(e.window)
  {
    var n := |log| - 1;
    if log[n] != Hidden(e.window) {
      FreeMeansHidden(log[..n], e, i);
      var k :| i < k < n && log[..n][k] == Hidden(e.window);
      assert log[k] == Hidden(e.window);
    }
  }

  lemma {:induction false} GuardedAt(log: seq<Event>, j: nat)
    requires Guarded(log) && j < |log|
    ensures (log[j].Clicked? || log[j].Confirmed?) ==>
              FreeOf(log[..j], log[j]) && j > 0
              && log[j - 1] == ReadBack(log[j].window, if log[j].Clicked? then Unchecked else Checked)
  {
    var n := |log| - 1;
    if j < n {
      GuardedAt(log[..n], j);
      assert log[..n][..j] == log[..j];
    }
  }

  /** Over any scans the counters are staged. */
  lemma CountersAreStaged(steps: seq<Step>)
    ensures var s := After(FRESH, steps); s.closed <= s.confirmed <= s.checked <= s.noticed && s.clicks <= s.noticed
  {
    ScansAreStaged(steps);
  }

  /** Over any scans a click follows an unchecked read-back and a confirmation a checked one, with nothing in
      between. */
  lemma PostsFollowTheirReading(steps: seq<Step>, j: nat)
    requires j < |After(FRESH, steps).log|
    ensures var log := After(FRESH, steps).log;
            && (log[j].Clicked? ==> j > 0 && log[j - 1] == ReadBack(log[j].window, Unchecked))
            && (log[j].Confirmed? ==> j > 0 && log[j - 1] == ReadBack(log[j].window, Checked))
  {
    ScansAreStaged(steps);
    GuardedAt(After(FRESH, steps).log, j);
  }

  /** Over any scans, between two clicks, or two confirmations, of one window it was seen hidden. */
  lemma NoticesAreStaged(steps: seq<Step>, i: nat, j: nat)
    requires i < j < |After(FRESH, steps).log|
    ensures var log := After(FRESH, steps).log;
            && (log[i] == log[j] && !log[i].Hidden? && !log[i].ReadBack? ==>
                  exists k :: i < k < j && log[k] == Hidden(log[i].window))
  {
    ScansAreStaged(steps);
    var log := After(FRESH, steps).log;
    GuardedAt(log, j);
    if log[i] == log[j] && (log[i].Clicked? || log[i].Confirmed?) {
      FreeMeansHidden(log[..j], log[j], i);
      var k :| i < k < j && log[..j][k] == Hidden(log[j].window);
      assert log[k] == Hidden(log[i].window);
    }
  }

  // ----- Documents and order notices -----

  /** Documents are kinds 1 to 5; order notices, kinds 7 to 12, are handled without limit. */
  type Kind = k: nat | 1 <= k <= 12 && k != 6 witness 1

  predicate IsDocument(k: Kind) {
    k <= 5
  }

  /** A hidden window of this kind may be handled again. */
  predicate Forgets(k: Kind) {
    k == 4 || k == 5 || k >= 7
  }

  datatype Handling = Handled(kind: Kind, window: Window) | Gone(window: Window)

  datatype Counts = Counts(privacy: nat, terms: nat, wizard: nat, settlement: nat, information: nat)

  datatype Papers = Papers(counts: Counts, last: Option<(Kind, Window)>, log: seq<Handling>)

  const NO_PAPERS := Papers(Counts(0, 0, 0, 0, 0), None, [])

  function HandledCount(c: Counts): nat {
    c.privacy + c.terms + c.wizard + c.settlement + c.information
  }

  function Counted(c: Counts, k: Kind): Counts {
    match k
    case 1 => c.(privacy := c.privacy + 1)
    case 2 => c.(terms := c.terms + 1)
    case 3 => c.(wizard := c.wizard + 1)
    case 4 => c.(settlement := c.settlement + 1)
    case 5 => c.(information := c.information + 1)
    case _ => c
  }

  function Documented(p: Papers, k: Kind, w: Window, enabled: bool, posted: bool): Papers {
    if p.last == Some((k, w)) || !enabled || (IsDocument(k) && HandledCount(p.counts) >= 8) || !posted then p
    else Papers(Counted(p.counts, k), Some((k, w)), p.log + [Handled(k, w)])
  }

  function Forgotten(p: Papers, visible: bool): Papers {
    if p.last.Some? && Forgets(p.last.value.0) && !visible
    then p.(last := None, log := p.log + [Gone(p.last.value.1)])
    else p
  }

  /** A document is handled when it is not the one handled last, its controls are enabled, fewer than eight documents of
      the kinds 1 to 5 were handled, and the post went out; it is then counted for its kind. */
  lemma DocumentIsExact(p: Papers, k: Kind, w: Window, enabled: bool, posted: bool)
    ensures var q := Documented(p, k, w, enabled, posted); var c := p.counts;
            var handled := p.last != Some((k, w)) && enabled && posted
                           && (k <= 5 ==> c.privacy + c.terms + c.wizard + c.settlement + c.information < 8);
            && (!handled ==> q == p)
            && (handled ==>
                  && q.last == Some((k, w)) && q.log == p.log + [Handled(k, w)]
                  && q.counts.privacy == c.privacy + (if k == 1 then 1 else 0)
                  && q.counts.terms == c.terms + (if k == 2 then 1 else 0)
                  && q.counts.wizard == c.wizard + (if k == 3 then 1 else 0)
                  && q.counts.settlement == c.settlement + (if k == 4 then 1 else 0)
                  && q.counts.information == c.information + (if k == 5 then 1 else 0))
  {
  }

  /** Which windows may be handled again once they are hidden: settlements, information and order notices. */
  lemma ForgettingIsExact(p: Papers, visible: bool)
    ensures var q := Forgotten(p, visible);
            var gone := p.last.Some? && !visible && (p.last.value.0 == 4 || p.last.value.0 == 5 || p.last.value.0 >= 7);
            && (!gone ==> q == p)
            && (gone ==> q.last.None? && q.counts == p.counts && q.log == p.log + [Gone(p.last.value.1)])
  {
  }

  datatype PaperStep = Document(kind: Kind, window: Window, enabled: bool, posted: bool) | ResetPapers(visible: bool)

  function PaperApply(p: Papers, step: PaperStep): Papers {
    match step
    case Document(k, w, enabled, posted) => Documented(p, k, w, enabled, posted)
    case ResetPapers(visible) => Forgotten(p, visible)
  }

  function PapersAfter(p: Papers, steps: seq<PaperStep>): Papers {
    if steps == [] then p else PaperApply(PapersAfter(p, steps[..|steps| - 1]), steps[|steps| - 1])
  }

  function Times(log: seq<Handling>, k: Kind): nat {
    if log == [] then 0
    else Times(log[..|log| - 1], k) + if log[|log| - 1].Handled? && log[|log| - 1].kind == k then 1 else 0
  }

  /** What the counters should say. */
  function Tally(log: seq<Handling>): Counts {
    Counts(Times(log, 1), Times(log, 2), Times(log, 3), Times(log, 4), Times(log, 5))
  }

  /** A window is handled again for the same kind only after it was seen hidden, or after another window was handled. */
  predicate NoRepeats(log: seq<Handling>) {
    forall i :: 0 < i < |log| ==>
      if log[i].Handled? then log[i] != log[i - 1]
      else log[i - 1].Handled? && log[i - 1].window == log[i].window && Forgets(log[i - 1].kind)
  }

  ghost predicate PapersOk(p: Papers) {
    && HandledCount(p.counts) <= 8 && p.counts == Tally(p.log) && NoRepeats(p.log)
    && (if p.last.Some? then p.log != [] && p.log[|p.log| - 1] == Handled(p.last.value.0, p.last.value.1)
        else p.log == [] || p.log[|p.log| - 1].Gone?)
  }

  lemma TallyGrows(log: seq<Handling>, e: Handling)
    ensures Tally(log + [e]) == if e.Handled? then Counted(Tally(log), e.kind) else Tally(log)
  {
    assert (log + [e])[..|log|] == log;
  }

  lemma PaperStepKeeps(p: Papers, step: PaperStep)
    requires PapersOk(p)
    ensures PapersOk(PaperApply(p, step))
  {
    match step
    case Document(k, w, enabled, posted) => TallyGrows(p.log, Handled(k, w));
    case ResetPapers(visible) => if p.last.Some? { TallyGrows(p.log, Gone(p.last.value.1)); }
  }

  /** Whatever the scans see, at most eight documents are handled per session, each counter counts exactly what was
      posted for its kind, and nothing is handled twice in a row without having been seen hidden in between. */
  lemma {:induction false} DocumentsAreBounded(steps: seq<PaperStep>)
    ensures var p := PapersAfter(NO_PAPERS, steps);
            PapersOk(p) && HandledCount(Tally(p.log)) <= 8 && NoRepeats(p.log)
  {
    if steps != [] {
      DocumentsAreBounded(steps[..|steps| - 1]);
      PaperStepKeeps(PapersAfter(NO_PAPERS, steps[..|steps| - 1]), steps[|steps| - 1]);
    }
  }

  // ----- The fields, changed in place -----

  class Scanner {
    var window: Option<Window>
    var phase: nat
    var noticed: nat
    var clicks: nat
    var checked: nat
    var confirmed: nat
    var closed: nat
    var log: seq<Event>

    constructor ()
      ensures View() == FRESH
    {
      window, phase, noticed, clicks, checked, confirmed, closed, log := None, 0, 0, 0, 0, 0, 0, [];
    }

    ghost function View(): Trade
      reads this
    {
      Trade(window, phase, noticed, clicks, checked, confirmed, closed, log)
    }

    method TradeNotice(w: Window, scan: Scan)
      modifies this
      ensures View() == Scanned(old(View()), w, scan)
    {
      if window.Some? && window.value != w && scan.earlierVisible { return; }
      if window != Some(w) {
        if window.Some? { log := log + [Hidden(window.value)]; }
        window, phase := Some(w), 0;
      }
      if phase == 3 { return; }
      if !scan.enabled { return; }
      log := log + [ReadBack(w, scan.check)];
      if phase == 0 {
        if scan.check == Unchecked {
          if scan.checkEnabled && scan.clicked {
            noticed, clicks, phase := noticed + 1, clicks + 1, 1;
            log := log + [Clicked(w)];
          }
          return;
        }
        if scan.check != Checked { return; }
        noticed, phase := noticed + 1, 1;
      }
      if scan.check != Checked { return; }
      if phase == 1 { checked, phase := checked + 1, 2; }
      if scan.confirmed {
        confirmed, phase := confirmed + 1, 3;
        log := log + [Confirmed(w)];
      }
    }

    method ResetNotice(visible: bool)
      modifies this
      ensures View() == Reset(old(View()), visible)
    {
      if window.Some? && !visible {
        if phase == 3 { closed := closed + 1; }
        log := log + [Hidden(window.value)];
        window, phase := None, 0;
      }
    }
  }

  class DocumentDesk {
    var privacy: nat
    var terms: nat
    var wizard: nat
    var settlement: nat
    var information: nat
    var lastKind: nat
    var lastWindow: Window
    ghost var log: seq<Handling>

    ghost predicate Valid()
      reads this
    {
      lastKind <= 12 && lastKind != 6
    }

    /** Kind zero stands for no last window. */
    ghost function View(): Papers
      requires Valid()
      reads this
    {
      Papers(Counts(privacy, terms, wizard, settlement, information),
             if lastKind == 0 then None else Some((lastKind as Kind, lastWindow)), log)
    }

    constructor ()
      ensures Valid() && View() == NO_PAPERS
    {
      privacy, terms, wizard, settlement, information, lastKind, lastWindow, log := 0, 0, 0, 0, 0, 0, 0, [];
    }

    method ConfirmDocument(k: Kind, w: Window, enabled: bool, posted: bool)
      requires Valid()
      modifies this
      ensures Valid() && View() == Documented(old(View()), k, w, enabled, posted)
    {
      if lastWindow == w && lastKind == k { return; }
      if !enabled || (k <= 5 && privacy + terms + wizard + settlement + information >= 8) { return; }
      if posted {
        lastWindow, lastKind, log := w, k, log + [Handled(k, w)];
        if k == 1 { privacy := privacy + 1; }
        else if k == 2 { terms := terms + 1; }
        else if k == 3 { wizard := wizard + 1; }
        else if k == 4 { settlement := settlement + 1; }
        else if k == 5 { information := information + 1; }
      }
    }

    method ResetDocuments(visible: bool)
      requires Valid()
      modifies this
      ensures Valid() && View() == Forgotten(old(View()), visible)
    {
      if (lastKind == 4 || lastKind == 5 || 7 <= lastKind <= 12) && !visible {
        log := log + [Gone(lastWindow)];
        lastWindow, lastKind := 0, 0;
      }
    }
  }
}
