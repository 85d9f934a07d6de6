/** Which preorder row belongs to this request (cn_futures_bridge/terminal/orders.py).

    Rows keep the text of the exported table.  How a text is read as a number, stripped or recognised as a market price
    is the parameter `Reader`: the results hold for every reader.
 */
module Binding {
  import opened Base

  datatype PreorderRow = PreorderRow(kind: string, status: string, trigger: string, instrument: string, name: string,
                                     side: string, offset: string, price: string, volume: string, hedge: string,
                                     placedAt: string, detail: string)

  /** Every column but the two that change when the row is started or sent. */
  datatype LocalIdentity = LocalIdentity(kind: string, trigger: string, instrument: string, name: string, side: string,
                                         offset: string, price: string, volume: string, hedge: string, placedAt: string)

  datatype Reader = Reader(strip: string -> string, number: string -> Option<real>, marketPrice: string -> bool)

  /** A request to open or close; an emulated market order has no price of its own. */
  datatype Request = Request(instrument: string, buy: bool, opens: bool, volume: nat, price: Option<real>)

  datatype Problem = DataInvalid | IdentityAmbiguous | StatusUnknown | ResetFailed

  function IdentityOf(row: PreorderRow): LocalIdentity {
    LocalIdentity(row.kind, row.trigger, row.instrument, row.name, row.side, row.offset, row.price, row.volume,
                  row.hedge, row.placedAt)
  }

  const MANUAL := "预埋单(手动)"
  const SENT_BY_HAND := "手动发出"

  /** The comparison stops at the first difference; a number is only read when it is reached. */
  function SameParameters(rd: Reader, row: PreorderRow, request: Request): Result<bool, Problem> {
    if row.kind != MANUAL || row.instrument != request.instrument
       || rd.strip(row.side) != (if request.buy then "买" else "卖")
       || row.offset != (if request.opens then "开仓" else "平仓")
    then Ok(false)
    else
      match rd.number(row.volume)
      case None => Err(DataInvalid)
      case Some(volume) =>
        if volume != request.volume as real || row.hedge != "投机" then Ok(false)
        else
          var price := rd.strip(row.price);
          if request.price.None? then Ok(rd.marketPrice(price))
          else if rd.marketPrice(price) then Ok(false)
          else
            match rd.number(price)
            case None => Err(DataInvalid)
            case Some(value) => Ok(value == request.price.value)
  }

  type Verdict = Result<bool, Problem>

  function Verdicts(rd: Reader, rows: seq<PreorderRow>, request: Request): (verdicts: seq<Verdict>)
    ensures |verdicts| == |rows|
    ensures forall i :: 0 <= i < |rows| ==> verdicts[i] == SameParameters(rd, rows[i], request)
  {
    seq(|rows|, i requires 0 <= i < |rows| => SameParameters(rd, rows[i], request))
  }

  /** any(...): the first match ends the search, an unreadable row before it raises. */
  function AnyTrue(verdicts: seq<Verdict>): Verdict {
    if verdicts == [] then Ok(false)
    else if verdicts[0] != Ok(false) then verdicts[0]
    else AnyTrue(verdicts[1..])
  }

  /** The positions of all matches; any unreadable row raises. */
  function TrueAt(verdicts: seq<Verdict>, i: nat): Result<seq<nat>, Problem>
    requires i <= |verdicts|
    decreases |verdicts| - i
  {
    if i == |verdicts| then Ok([])
    else if verdicts[i].Err? then Err(verdicts[i].error)
    else
      match TrueAt(verdicts, i + 1)
      case Err(e) => Err(e)
      case Ok(rest) => Ok(if verdicts[i].value then [i] + rest else rest)
  }

  function AnySame(rd: Reader, rows: seq<PreorderRow>, request: Request): Verdict {
    AnyTrue(Verdicts(rd, rows, request))
  }

  function Identities(rows: seq<PreorderRow>): seq<LocalIdentity> {
    seq(|rows|, i requires 0 <= i < |rows| => IdentityOf(rows[i]))
  }

  function Without<T>(s: seq<T>, i: nat): seq<T>
    requires i < |s|
  {
    s[..i] + s[i + 1..]
  }

  /** Two sorted lists are equal exactly when the lists are equal as multisets. */
  function BindLocal(rd: Reader, before: seq<PreorderRow>, after: seq<PreorderRow>, request: Request,
                     statuses: set<string>): (bound: Result<nat, Problem>)
    ensures bound.Ok? ==> bound.value < |after|
  {
    match TrueAt(Verdicts(rd, after, request), 0)
    case Err(e) => Err(e)
    case Ok(matches) =>
      if |matches| != 1 || |after| != |before| + 1 then Err(StatusUnknown)
      else
        TruesAre(Verdicts(rd, after, request), 0);
        var i := matches[0];
        if after[i].status !in statuses || after[i].trigger != SENT_BY_HAND
           || multiset(Identities(Without(after, i))) != multiset(Identities(before))
        then Err(StatusUnknown)
        else Ok(i)
  }

  function Positions(rows: seq<PreorderRow>, id: LocalIdentity, i: nat): (found: seq<nat>)
    requires i <= |rows|
    decreases |rows| - i
  {
    if i == |rows| then []
    else if IdentityOf(rows[i]) == id then [i] + Positions(rows, id, i + 1)
    else Positions(rows, id, i + 1)
  }

  function Owned(rows: seq<PreorderRow>, owned: Option<PreorderRow>): (found: Result<nat, Problem>)
    ensures found.Ok? ==> owned.Some? && found.value < |rows|
  {
    if owned.None? then Err(IdentityAmbiguous)
    else
      PositionsAre(rows, IdentityOf(owned.value), 0);
      var found := Positions(rows, IdentityOf(owned.value), 0);
      if |found| != 1 then Err(IdentityAmbiguous) else Ok(found[0])
  }

  // ----- What the searches find -----

  lemma SameDependsOnIdentity(rd: Reader, a: PreorderRow, b: PreorderRow, request: Request)
    requires IdentityOf(a) == IdentityOf(b)
    ensures SameParameters(rd, a, request) == SameParameters(rd, b, request)
  {
  }

  lemma {:induction false} NoneIsTrue(verdicts: seq<Verdict>)
    ensures AnyTrue(verdicts) == Ok(false) <==> forall i :: 0 <= i < |verdicts| ==> verdicts[i] == Ok(false)
  {
    if verdicts != [] { NoneIsTrue(verdicts[1..]); }
  }

  lemma {:induction false} TruesAre(verdicts: seq<Verdict>, i: nat)
    requires i <= |verdicts|
    ensures var found := TrueAt(verdicts, i);
            && (found.Ok? <==> forall j :: i <= j < |verdicts| ==> verdicts[j].Ok?)
            && (found.Ok? ==>
                  && (forall k :: 0 <= k < |found.value| ==> i <= found.value[k] < |verdicts|)
                  && (forall k, l :: 0 <= k < l < |found.value| ==> found.value[k] < found.value[l])
                  && (forall j :: i <= j < |verdicts| ==> (j in found.value <==> verdicts[j] == Ok(true))))
    decreases |verdicts| - i
  {
    if i < |verdicts| {
      TruesAre(verdicts, i + 1);
      var rest, found := TrueAt(verdicts, i + 1), TrueAt(verdicts, i);
      if found.Ok? {
        forall j | i <= j < |verdicts| ensures j in found.value <==> verdicts[j] == Ok(true) {
          assert j in found.value <==> j in rest.value || (j == i && verdicts[i] == Ok(true));
        }
      }
    }
  }

  lemma OneIsTrue(verdicts: seq<Verdict>, i: nat)
    ensures TrueAt(verdicts, 0) == Ok([i]) <==>
              i < |verdicts| && forall j :: 0 <= j < |verdicts| ==> verdicts[j] == Ok(j == i)
  {
    TruesAre(verdicts, 0);
    var found := TrueAt(verdicts, 0);
    if found == Ok([i]) {
      assert i in found.value;
      forall j | 0 <= j < |verdicts| ensures verdicts[j] == Ok(j == i) {
        assert verdicts[j].Ok? && (j in found.value <==> j == i);
        assert verdicts[j].value == (j == i);
      }
    }
    if i < |verdicts| && forall j :: 0 <= j < |verdicts| ==> verdicts[j] == Ok(j == i) {
      forall j ensures j in found.value <==> j == i { assert j in found.value ==> 0 <= j < |verdicts|; }
      OneIsAll(found.value, i);
    }
  }

  lemma {:induction false} PositionsAre(rows: seq<PreorderRow>, id: LocalIdentity, i: nat)
    requires i <= |rows|
    ensures var found := Positions(rows, id, i);
            && (forall k :: 0 <= k < |found| ==> i <= found[k] < |rows|)
            && (forall k, l :: 0 <= k < l < |found| ==> found[k] < found[l])
            && (forall j :: i <= j < |rows| ==> (j in found <==> IdentityOf(rows[j]) == id))
    decreases |rows| - i
  {
    if i < |rows| {
      PositionsAre(rows, id, i + 1);
      var found, rest := Positions(rows, id, i), Positions(rows, id, i + 1);
      forall j | i <= j < |rows| ensures j in found <==> IdentityOf(rows[j]) == id {
        assert j in found <==> j in rest || (j == i && IdentityOf(rows[i]) == id);
      }
    }
  }

  /** The one row with this identity. */
  ghost predicate Only(rows: seq<PreorderRow>, i: nat, id: LocalIdentity) {
    i < |rows| && forall j :: 0 <= j < |rows| ==> (IdentityOf(rows[j]) == id <==> j == i)
  }

  lemma OneIsAll(found: seq<nat>, i: nat)
    requires forall k, l :: 0 <= k < l < |found| ==> found[k] < found[l]
    requires forall j :: j in found <==> j == i
    ensures found == [i]
  {
    assert |found| > 1 ==> found[0] < found[1];
    assert i in found;
    forall k | 0 <= k < |found| ensures found[k] == i { assert found[k] in found; }
  }

  /** `owned` answers with a position exactly when that row is the only one of its identity. */
  lemma OwnedIsTheOnlyOne(rows: seq<PreorderRow>, row: PreorderRow, i: nat)
    ensures Owned(rows, Some(row)) == Ok(i) <==> Only(rows, i, IdentityOf(row))
  {
    PositionsAre(rows, IdentityOf(row), 0);
    var found := Positions(rows, IdentityOf(row), 0);
    if Owned(rows, Some(row)) == Ok(i) {
      assert found == [i];
      assert i in found;
    }
    if Only(rows, i, IdentityOf(row)) {
      forall j ensures j in found <==> j == i { assert j in found ==> 0 <= j < |rows|; }
      OneIsAll(found, i);
    }
  }

  // ----- Binding -----

  lemma WithoutIdentities(rows: seq<PreorderRow>, i: nat)
    requires i < |rows|
    ensures Identities(Without(rows, i)) == Without(Identities(rows), i)
    ensures multiset(Identities(rows)) == multiset(Identities(Without(rows, i))) + multiset{IdentityOf(rows[i])}
  {
    var ids := Identities(rows);
    assert ids == ids[..i] + [ids[i]] + ids[i + 1..];
  }

  lemma OneMore(before: seq<PreorderRow>, after: seq<PreorderRow>, i: nat)
    requires i < |after|
    ensures multiset(Identities(after)) == multiset(Identities(before)) + multiset{IdentityOf(after[i])}
            <==> |after| == |before| + 1 && multiset(Identities(Without(after, i))) == multiset(Identities(before))
  {
    WithoutIdentities(after, i);
    var ids, others := Identities(before), Identities(Without(after, i));
    assert |multiset(ids)| == |before| && |multiset(others)| == |after| - 1;
    if multiset(others) + multiset{IdentityOf(after[i])} == multiset(ids) + multiset{IdentityOf(after[i])} {
      assert multiset(others) == multiset(others) + multiset{IdentityOf(after[i])} - multiset{IdentityOf(after[i])};
      assert multiset(ids) == multiset(ids) + multiset{IdentityOf(after[i])} - multiset{IdentityOf(after[i])};
    }
  }

  lemma InIdentities(rows: seq<PreorderRow>, id: LocalIdentity)
    ensures id in multiset(Identities(rows)) <==> exists j :: 0 <= j < |rows| && IdentityOf(rows[j]) == id
  {
    var ids := Identities(rows);
    if id in multiset(ids) {
      assert id in ids;
      var j :| 0 <= j < |ids| && ids[j] == id;
      assert IdentityOf(rows[j]) == id;
    }
    if j :| 0 <= j < |rows| && IdentityOf(rows[j]) == id {
      assert ids[j] in ids;
    }
  }

  lemma RowStays(before: seq<PreorderRow>, after: seq<PreorderRow>, i: nat, k: nat)
    requires i < |after| && k < |before|
    requires multiset(Identities(Without(after, i))) == multiset(Identities(before))
    ensures exists j :: 0 <= j < |after| && j != i && IdentityOf(after[j]) == IdentityOf(before[k])
  {
    var others := Without(after, i);
    InIdentities(before, IdentityOf(before[k]));
    InIdentities(others, IdentityOf(before[k]));
    var m :| 0 <= m < |others| && IdentityOf(others[m]) == IdentityOf(before[k]);
    assert others[m] == after[if m < i then m else m + 1];
  }

  /** Binding proves ownership, and by itself implies that the pre-check had found no row with these parameters: the
      bound identity did not exist before, exists exactly once after, nothing else appeared or vanished, and `owned`
      finds this row again wherever the table holds these identities. */
  lemma BoundIdentityIsNewAndUnique(rd: Reader, before: seq<PreorderRow>, after: seq<PreorderRow>, request: Request,
                                    statuses: set<string>)
    requires BindLocal(rd, before, after, request, statuses).Ok?
    ensures AnySame(rd, before, request) == Ok(false)
    ensures var i := BindLocal(rd, before, after, request, statuses).value; var id := IdentityOf(after[i]);
            && SameParameters(rd, after[i], request) == Ok(true) && after[i].status in statuses
            && (forall row :: row in before ==> IdentityOf(row) != id)
            && Only(after, i, id)
            && multiset(Identities(after)) == multiset(Identities(before)) + multiset{id}
            && Owned(after, Some(after[i])) == Ok(i)
  {
    var i := BindLocal(rd, before, after, request, statuses).value;
    var id := IdentityOf(after[i]);
    var verdicts := Verdicts(rd, after, request);
    assert TrueAt(verdicts, 0).value == [i];
    OneIsTrue(verdicts, i);
    assert verdicts[i] == Ok(true);
    NoneIsTrue(Verdicts(rd, before, request));
    forall k | 0 <= k < |before| ensures Verdicts(rd, before, request)[k] == Ok(false) && IdentityOf(before[k]) != id {
      RowStays(before, after, i, k);
      var j :| 0 <= j < |after| && j != i && IdentityOf(after[j]) == IdentityOf(before[k]);
      assert verdicts[j] == Ok(false);
      SameDependsOnIdentity(rd, before[k], after[j], request);
      if IdentityOf(before[k]) == id { SameDependsOnIdentity(rd, before[k], after[i], request); }
    }
    forall j | 0 <= j < |after| ensures IdentityOf(after[j]) == id <==> j == i {
      assert verdicts[j] == Ok(j == i);
      if IdentityOf(after[j]) == id { SameDependsOnIdentity(rd, after[j], after[i], request); }
    }
    WithoutIdentities(after, i);
    OwnedIsTheOnlyOne(after, after[i], i);
  }

  /** What a caller can see in the two exports that makes binding succeed. */
  ghost predicate Bindable(rd: Reader, before: seq<PreorderRow>, after: seq<PreorderRow>, request: Request,
                           statuses: set<string>, i: nat) {
    && i < |after| && after[i].status in statuses && after[i].trigger == SENT_BY_HAND
    && (forall j :: 0 <= j < |after| ==> SameParameters(rd, after[j], request) == Ok(j == i))
    && multiset(Identities(after)) == multiset(Identities(before)) + multiset{IdentityOf(after[i])}
  }

  /** Binding succeeds exactly when the later export is the earlier one plus one matching row in an allowed status. */
  lemma BindingIsExact(rd: Reader, before: seq<PreorderRow>, after: seq<PreorderRow>, request: Request,
                       statuses: set<string>, i: nat)
    ensures BindLocal(rd, before, after, request, statuses) == Ok(i)
            <==> Bindable(rd, before, after, request, statuses, i)
  {
    var verdicts := Verdicts(rd, after, request);
    OneIsTrue(verdicts, i);
    if i < |after| { OneMore(before, after, i); }
    if BindLocal(rd, before, after, request, statuses) == Ok(i) {
      assert TrueAt(verdicts, 0).value == [i];
    }
  }

  // ----- Which rows match -----

  /** A row matches a request exactly when its columns say so: a manual preorder of this instrument, side and offset, a
      speculative one, with this volume, and with this price, or with the words for a market price when the request has
      none.  It is an error exactly when a number that decides cannot be read. */
  lemma MatchIsExact(rd: Reader, row: PreorderRow, request: Request)
    ensures var placed := row.kind == "预埋单(手动)" && row.instrument == request.instrument
                          && rd.strip(row.side) == (if request.buy then "买" else "卖")
                          && row.offset == (if request.opens then "开仓" else "平仓");
            var volume := rd.number(row.volume); var price := rd.strip(row.price);
            var sized := placed && volume == Some(request.volume as real) && row.hedge == "投机";
            && (SameParameters(rd, row, request) == Ok(true) <==>
                  sized && (request.price.None? ==> rd.marketPrice(price))
                  && (request.price.Some? ==> !rd.marketPrice(price) && rd.number(price) == request.price))
            && (SameParameters(rd, row, request).Err? <==>
                  (placed && volume.None?)
                  || (sized && request.price.Some? && !rd.marketPrice(price) && rd.number(price).None?))
  {
  }

  /** How the bridge writes numbers into the file it imports. */
  datatype Writer = Writer(price: real -> string, volume: nat -> string)

  /** The row written for a limit order; the side is padded as the terminal pads it. */
  function WrittenRow(w: Writer, request: Request, name: string): PreorderRow
    requires request.price.Some?
  {
    PreorderRow("预埋单(手动)", "未启动", "手动发出", request.instrument, name, if request.buy then "买　" else "　卖",
                if request.opens then "开仓" else "平仓", w.price(request.price.value), w.volume(request.volume), "投机",
                "13:00:00", "")
  }

  /** What reading must do for what was written: lose the padding, and give the numbers back. */
  predicate ReadsBack(rd: Reader, w: Writer, request: Request)
    requires request.price.Some?
  {
    var price := rd.strip(w.price(request.price.value));
    && rd.strip("买　") == "买" && rd.strip("　卖") == "卖"
    && rd.number(w.volume(request.volume)) == Some(request.volume as real)
    && rd.number(price) == request.price && !rd.marketPrice(price)
  }

  /** Written and read back, the row matches its own request, and another one exactly when that asks for the same
      instrument, side, offset, volume and price. */
  lemma WrittenRowMatchesExactly(rd: Reader, w: Writer, request: Request, name: string, other: Request)
    requires request.price.Some? && ReadsBack(rd, w, request)
    ensures SameParameters(rd, WrittenRow(w, request, name), request) == Ok(true)
    ensures SameParameters(rd, WrittenRow(w, request, name), other).Ok?
    ensures SameParameters(rd, WrittenRow(w, request, name), other) == Ok(true) <==>
              && other.instrument == request.instrument && other.buy == request.buy && other.opens == request.opens
              && other.volume == request.volume && other.price == request.price
  {
    var row := WrittenRow(w, request, name);
    assert "开仓"[0] != "平仓"[0] && "买"[0] != "卖"[0];
    MatchIsExact(rd, row, request);
    MatchIsExact(rd, row, other);
  }

  /** An ordinary import binds: if the terminal shows the earlier rows and, somewhere, the written one, and none of the
      earlier rows matched, then exactly that row is bound. */
  lemma WrittenRowIsBound(rd: Reader, w: Writer, request: Request, name: string, before: seq<PreorderRow>, k: nat,
                          statuses: set<string>)
    requires request.price.Some? && ReadsBack(rd, w, request) && k <= |before| && "未启动" in statuses
    requires forall row :: row in before ==> SameParameters(rd, row, request) == Ok(false)
    ensures var after := before[..k] + [WrittenRow(w, request, name)] + before[k..];
            BindLocal(rd, before, after, request, statuses) == Ok(k)
  {
    var row := WrittenRow(w, request, name);
    var after := before[..k] + [row] + before[k..];
    WrittenRowMatchesExactly(rd, w, request, name, request);
    hide SameParameters, BindLocal;
    var ids := Identities(before);
    assert Identities(after) == ids[..k] + [IdentityOf(row)] + ids[k..];
    assert ids == ids[..k] + ids[k..];
    forall j | 0 <= j < |after| ensures SameParameters(rd, after[j], request) == Ok(j == k) {
      if j != k { assert after[j] == before[if j < k then j else j - 1]; }
    }
    BindingIsExact(rd, before, after, request, statuses, k);
  }

  /** Rows have the same identity exactly when they differ in nothing but their status and its detail. */
  lemma IdentityIsExact(a: PreorderRow, b: PreorderRow)
    ensures IdentityOf(a) == IdentityOf(b) <==> a == b.(status := a.status, detail := a.detail)
  {
  }

  /** The check before an import: it finds a match exactly when some row matches and everything before it can be
      read. */
  lemma {:induction false} PreCheckIsExact(rd: Reader, rows: seq<PreorderRow>, request: Request)
    ensures AnySame(rd, rows, request) == Ok(false) <==>
              forall row :: row in rows ==> SameParameters(rd, row, request) == Ok(false)
    ensures AnySame(rd, rows, request) == Ok(true) <==>
              exists i :: 0 <= i < |rows| && SameParameters(rd, rows[i], request) == Ok(true)
                          && forall j :: 0 <= j < i ==> SameParameters(rd, rows[j], request) == Ok(false)
  {
    hide SameParameters;
    NoneIsTrue(Verdicts(rd, rows, request));
    FirstIsTrue(Verdicts(rd, rows, request));
  }

  lemma {:induction false} FirstIsTrue(verdicts: seq<Verdict>)
    ensures AnyTrue(verdicts) == Ok(true) <==>
              exists i :: 0 <= i < |verdicts| && verdicts[i] == Ok(true)
                          && forall j :: 0 <= j < i ==> verdicts[j] == Ok(false)
  {
    if verdicts != [] && verdicts[0] == Ok(false) {
      var rest := verdicts[1..];
      FirstIsTrue(rest);
      if i :| 0 <= i < |rest| && rest[i] == Ok(true) && forall j :: 0 <= j < i ==> rest[j] == Ok(false) {
        assert verdicts[i + 1] == Ok(true) && forall j :: 0 < j < i + 1 ==> verdicts[j] == rest[j - 1];
      }
      if i :| 0 <= i < |verdicts| && verdicts[i] == Ok(true) && forall j :: 0 <= j < i ==> verdicts[j] == Ok(false) {
        assert rest[i - 1] == Ok(true) && forall j :: 0 <= j < i - 1 ==> rest[j] == verdicts[j + 1];
      }
    }
  }

  /** A row is the only one of its identity exactly when that identity is counted once. */
  lemma OnlyIsOnce(rows: seq<PreorderRow>, id: LocalIdentity, i: nat)
    requires i < |rows| && IdentityOf(rows[i]) == id
    ensures Only(rows, i, id) <==> multiset(Identities(rows))[id] == 1
  {
    hide IdentityOf, Identities;
    WithoutIdentities(rows, i);
    InIdentities(Without(rows, i), id);
    OnlyMeansNoOther(rows, id, i);
  }

  lemma OnlyMeansNoOther(rows: seq<PreorderRow>, id: LocalIdentity, i: nat)
    requires i < |rows| && IdentityOf(rows[i]) == id
    ensures Only(rows, i, id) <==> !exists k :: 0 <= k < |Without(rows, i)| && IdentityOf(Without(rows, i)[k]) == id
  {
    hide IdentityOf;
    var others := Without(rows, i);
    assert forall k :: 0 <= k < |others| ==> others[k] == rows[if k < i then k else k + 1];
    if !exists k :: 0 <= k < |others| && IdentityOf(others[k]) == id {
      forall j | 0 <= j < |rows| ensures IdentityOf(rows[j]) == id <==> j == i {
        if j != i { assert rows[j] == others[if j < i then j else j - 1]; }
      }
    }
  }

  /** Later exports may reorder the rows and change their status; `owned` still points at the same identity. */
  lemma OwnershipSurvivesReordering(rows: seq<PreorderRow>, again: seq<PreorderRow>, row: PreorderRow)
    requires Owned(rows, Some(row)).Ok?
    requires multiset(Identities(again)) == multiset(Identities(rows))
    ensures Owned(again, Some(row)).Ok? && Only(again, Owned(again, Some(row)).value, IdentityOf(row))
  {
    var id := IdentityOf(row);
    var i := Owned(rows, Some(row)).value;
    OwnedIsTheOnlyOne(rows, row, i);
    OnlyIsOnce(rows, id, i);
    InIdentities(again, id);
    var j: nat :| j < |again| && IdentityOf(again[j]) == id;
    OnlyIsOnce(again, id, j);
    OwnedIsTheOnlyOne(again, row, j);
  }

  /** Where the owned row is, if it is unique, at the same place and unchanged in both exports. */
  function Selection(owned: Option<PreorderRow>, rows: seq<PreorderRow>, again: seq<PreorderRow>)
    : Result<nat, Problem>
  {
    var first, second := Owned(rows, owned), Owned(again, owned);
    if first.Err? then first
    else if second.Err? then second
    else if second.value != first.value || again[first.value] != rows[first.value] then Err(IdentityAmbiguous)
    else first
  }

  /** A row can be selected exactly when it is the only one of its identity in both exports, at the same place, and
      nothing in it has changed. */
  lemma SelectionIsExact(owned: Option<PreorderRow>, rows: seq<PreorderRow>, again: seq<PreorderRow>)
    ensures Selection(owned, rows, again).Ok? <==>
              owned.Some? && exists i: nat ::
                Only(rows, i, IdentityOf(owned.value)) && Only(again, i, IdentityOf(owned.value)) && again[i] == rows[i]
  {
    if owned.Some? {
      forall i: nat ensures Owned(rows, owned) == Ok(i) <==> Only(rows, i, IdentityOf(owned.value)) {
        OwnedIsTheOnlyOne(rows, owned.value, i);
      }
      forall i: nat ensures Owned(again, owned) == Ok(i) <==> Only(again, i, IdentityOf(owned.value)) {
        OwnedIsTheOnlyOne(again, owned.value, i);
      }
    }
  }

  // ----- The steps object: the row this request owns -----

  class OrderSteps {
    const reader: Reader
    var ownedRow: Option<PreorderRow>

    constructor (reader: Reader)
      ensures this.reader == reader && ownedRow == None
    {
      this.reader := reader;
      ownedRow := None;
    }

    method Bind(before: seq<PreorderRow>, after: seq<PreorderRow>, request: Request, statuses: set<string>)
      returns (problem: Option<Problem>)
      modifies this
      ensures problem.None? <==> exists i: nat :: Bindable(reader, before, after, request, statuses, i)
      ensures problem.Some? ==> ownedRow == old(ownedRow)
                                && BindLocal(reader, before, after, request, statuses) == Err(problem.value)
      ensures problem.None? ==> ownedRow.Some? && Owned(after, ownedRow).Ok?
                                && ownedRow.value == after[Owned(after, ownedRow).value]
                                && IdentityOf(ownedRow.value) !in multiset(Identities(before))
    {
      var bound := BindLocal(reader, before, after, request, statuses);
      forall i: nat ensures bound == Ok(i) <==> Bindable(reader, before, after, request, statuses, i) {
        BindingIsExact(reader, before, after, request, statuses, i);
      }
      if bound.Err? { return Some(bound.error); }
      BoundIdentityIsNewAndUnique(reader, before, after, request, statuses);
      InIdentities(before, IdentityOf(after[bound.value]));
      ownedRow := Some(after[bound.value]);
      return None;
    }

    /** The row that gets selected is the owned one in both exports, at the same place, with nothing changed. */
    method SelectLocal(rows: seq<PreorderRow>, again: seq<PreorderRow>) returns (selected: Result<nat, Problem>)
      ensures selected == Selection(ownedRow, rows, again)
      ensures selected.Ok? <==> ownedRow.Some? && exists i: nat ::
                Only(rows, i, IdentityOf(ownedRow.value)) && Only(again, i, IdentityOf(ownedRow.value))
                    && again[i] == rows[i]
      ensures selected.Ok? ==> Only(again, selected.value, IdentityOf(ownedRow.value))
    {
      if ownedRow.Some? {
        forall i: nat ensures Owned(rows, ownedRow) == Ok(i) <==> Only(rows, i, IdentityOf(ownedRow.value)) {
          OwnedIsTheOnlyOne(rows, ownedRow.value, i);
        }
        forall i: nat ensures Owned(again, ownedRow) == Ok(i) <==> Only(again, i, IdentityOf(ownedRow.value)) {
          OwnedIsTheOnlyOne(again, ownedRow.value, i);
        }
      }
      var first := Owned(rows, ownedRow);
      if first.Err? { return first; }
      var second := Owned(again, ownedRow);
      if second.Err? { return second; }
      if second.value != first.value || again[first.value] != rows[first.value] { return Err(IdentityAmbiguous); }
      return Ok(first.value);
    }

    /** Ownership ends only when an export no longer shows the row. */
    method Cleanup(rows: seq<PreorderRow>, again: seq<PreorderRow>, left: seq<PreorderRow>)
        returns (problem: Option<Problem>)
      modifies this
      ensures problem.None? <==>
                old(ownedRow).None? || (Selection(old(ownedRow), rows, again).Ok?
                                        && IdentityOf(old(ownedRow).value) !in multiset(Identities(left)))
      ensures ownedRow == if problem.None? then None else old(ownedRow)
    {
      if ownedRow.None? { return None; }
      var selected := SelectLocal(rows, again);
      if selected.Err? { return Some(selected.error); }
      InIdentities(left, IdentityOf(ownedRow.value));
      if exists j :: 0 <= j < |left| && IdentityOf(left[j]) == IdentityOf(ownedRow.value) { return Some(ResetFailed); }
      ownedRow := None;
      return None;
    }
  }
}
