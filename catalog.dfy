/** The catalog manager (src/app/dashboard/components/Itens.tsx): search, save with the photo
    gate, edit/reset of the form, delete, and the bulk percentage price adjustment. */
module Catalog {
  import opened Wrappers
  import opened Types
  import Seqs
  import opened Text
  import opened Backend

  // ---------------------------------------------------------------------------------------------
  // Search

  /** The search keeps an item whose lower-cased name or description contains the term. */
  predicate ItemMatches(i: Item, term: string)
  {
    Contains(Lower(i.nome), Lower(term)) || Contains(Lower(i.descricao), Lower(term))
  }

  function ItemMatcher(term: string): Item -> bool
  {
    (i: Item) => ItemMatches(i, term)
  }

  /** The search effect: the matching items, in their loaded order. */
  function FilterItens(itens: seq<Item>, term: string): (r: seq<Item>)
    ensures |r| <= |itens|
    ensures forall x :: x in r <==> x in itens && ItemMatches(x, term)
  {
    Seqs.FilterMember(itens, ItemMatcher(term));
    Seqs.Filter(itens, ItemMatcher(term))
  }

  /** An empty search term keeps every item, in order. */
  lemma FilterItensEmptyTerm(itens: seq<Item>)
    ensures FilterItens(itens, "") == itens
  {
    forall k | 0 <= k < |itens| ensures ItemMatcher("")(itens[k]) {
      ContainsEmpty(Lower(itens[k].nome));
    }
    Seqs.FilterAll(itens, ItemMatcher(""));
  }

  // ---------------------------------------------------------------------------------------------
  // Form

  /** The price input's `parseFloat(e.target.value) || 0`. */
  function PriceInput(parsed: Option<real>): (preco: real)
    ensures parsed.Some? ==> preco == parsed.value
    ensures parsed.None? ==> preco == 0.0
  {
    parsed.GetOr(0.0)
  }

  /** The empty form `resetForm` restores. */
  function DefaultForm(userId: string): (f: Item)
    ensures f.user_id == userId && f.nome == "" && f.descricao == "" && f.unidade == ""
    ensures f.categoria == Produto && f.preco == 0.0 && f.foto.None? && f.id.None?
  {
    Item(None, userId, "", "", Produto, 0.0, "", None, None)
  }

  /** A JavaScript-truthy photo: present and not the empty string. */
  predicate HasPhoto(foto: Option<string>)
  {
    foto.Some? && foto.value != ""
  }

  datatype ItemSaveError = MissingRequired | PhotoNeedsPro

  function ItemSaveMessage(e: ItemSaveError): string
  {
    match e
    case MissingRequired => "Preencha os campos obrigatórios"
    case PhotoNeedsPro => "Recurso disponível no plano PRO"
  }

  /** `handleSave`'s checks in their order: a name and a non-zero price, then the photo gate. */
  function ValidateItem(form: Item, isPro: bool): (r: Option<ItemSaveError>)
    ensures r == Some(MissingRequired) <==> form.nome == "" || form.preco == 0.0
    ensures r == Some(PhotoNeedsPro) <==> form.nome != "" && form.preco != 0.0 && HasPhoto(form.foto) && !isPro
    ensures r.None? <==> form.nome != "" && form.preco != 0.0 && (!HasPhoto(form.foto) || isPro)
  {
    if form.nome == "" || form.preco == 0.0 then Some(MissingRequired)
    else if HasPhoto(form.foto) && !isPro then Some(PhotoNeedsPro)
    else None
  }

  /** A form written over an existing row by `.update(formData)`: fields the form leaves
      undefined keep the row's value. */
  function Overwrite(row: Item, form: Item): Item
  {
    form.(id := if form.id.Some? then form.id else row.id,
          created_at := if form.created_at.Some? then form.created_at else row.created_at)
  }

  /** A form as `.insert(formData)` stores it, with the backend's id and timestamp. */
  function Inserted(form: Item, newId: string, now: string): Item
  {
    form.(id := if form.id.Some? then form.id else Some(newId),
          created_at := if form.created_at.Some? then form.created_at else Some(now))
  }

  /** The `itens` table after `handleSave`'s write (see `Backend.SaveById`). */
  function SaveItem(rows: seq<Item>, editing: Option<Item>, form: Item, newId: string, now: string): seq<Item>
  {
    SaveById(rows, editing, (x: Item) => x.id, (row: Item) => Overwrite(row, form), Inserted(form, newId, now))
  }

  /** Editing writes the form's fields into every row carrying the edited item's id, keeping the
      row's id and timestamp where the form has none, and leaves the other rows; an edited item
      whose id is undefined matches no row, so the table stays as it was. */
  lemma SaveItemEdit(rows: seq<Item>, e: Item, form: Item, newId: string, now: string)
    ensures var r := SaveItem(rows, Some(e), form, newId, now);
            |r| == |rows| &&
            (forall k :: 0 <= k < |rows| && e.id.Some? && rows[k].id == e.id ==>
               r[k] == form.(id := r[k].id, created_at := r[k].created_at) &&
               (form.id.None? ==> r[k].id == rows[k].id)) &&
            (forall k :: 0 <= k < |rows| && (e.id.None? || rows[k].id != e.id) ==> r[k] == rows[k])
  {
  }

  /** The `itens` table after `.delete().eq('id', id)`. */
  function DeleteItem(rows: seq<Item>, id: string): (r: seq<Item>)
    ensures forall x :: x in r <==> x in rows && x.id != Some(id)
  {
    Seqs.FilterMember(rows, ItemIdIsNot(id));
    Seqs.Filter(rows, ItemIdIsNot(id))
  }

  function ItemIdIsNot(id: string): Item -> bool
  {
    (i: Item) => i.id != Some(id)
  }

  // ---------------------------------------------------------------------------------------------
  // Bulk price adjustment

  /** The multiplier of a percentage adjustment. */
  function Factor(p: real): real
  {
    1.0 + p / 100.0
  }

  function Readjusted(i: Item, p: real): Item
  {
    i.(preco := i.preco * Factor(p))
  }

  function ReadjustBy(p: real): Item -> Item
  {
    (i: Item) => Readjusted(i, p)
  }

  /** `itensAtualizados`: every price multiplied by `1 + p/100`, nothing else touched, same
      length and order. */
  function ReadjustAll(itens: seq<Item>, p: real): (r: seq<Item>)
    ensures |r| == |itens|
    ensures forall k :: 0 <= k < |itens| ==>
              r[k].preco == itens[k].preco * (1.0 + p / 100.0) && r[k].(preco := itens[k].preco) == itens[k]
  {
    Seqs.Map(itens, ReadjustBy(p))
  }

  /** Multipliers compose: `(1 + p/100)(1 + q/100) = 1 + (p + q + pq/100)/100`. */
  lemma FactorCompose(p: real, q: real)
    ensures Factor(p) * Factor(q) == Factor(p + q + p * q / 100.0)
  {
    calc {
      Factor(p) * Factor(q);
      (1.0 + p / 100.0) * (1.0 + q / 100.0);
      1.0 + p / 100.0 + q / 100.0 + (p / 100.0) * (q / 100.0);
      { assert (p / 100.0) * (q / 100.0) == (p * q / 100.0) / 100.0; }
      1.0 + (p + q + p * q / 100.0) / 100.0;
    }
  }

  /** Two adjustments in a row are one adjustment by the compounded percentage. */
  lemma ReadjustCompose(itens: seq<Item>, p: real, q: real)
    ensures ReadjustAll(ReadjustAll(itens, p), q) == ReadjustAll(itens, p + q + p * q / 100.0)
  {
    var c := p + q + p * q / 100.0;
    var mid := ReadjustAll(itens, p);
    var a := ReadjustAll(mid, q);
    var b := ReadjustAll(itens, c);
    forall k | 0 <= k < |itens| ensures a[k] == b[k] {
      assert mid[k] == Readjusted(itens[k], p);
      assert a[k] == Readjusted(mid[k], q);
      assert b[k] == Readjusted(itens[k], c);
      FactorCompose(p, q);
      MulAssoc(itens[k].preco, Factor(p), Factor(q));
    }
  }

  lemma MulAssoc(x: real, y: real, z: real)
    ensures (x * y) * z == x * (y * z)
  {
  }

  /** The multiplier of `-100p / (100 + p)` is the inverse of the one of `p`. */
  lemma FactorInverse(p: real)
    requires p != -100.0
    ensures Factor(p) * Factor(-100.0 * p / (100.0 + p)) == 1.0
  {
    var q := -100.0 * p / (100.0 + p);
    assert Factor(p) == (100.0 + p) / 100.0;
    assert Factor(q) == 100.0 / (100.0 + p) by {
      assert q / 100.0 == -p / (100.0 + p);
      assert 1.0 == (100.0 + p) / (100.0 + p);
    }
  }

  /** An adjustment by `p` is undone by one of `-100p / (100 + p)` (exactly, on reals). */
  lemma ReadjustInverse(itens: seq<Item>, p: real)
    requires p != -100.0
    ensures ReadjustAll(ReadjustAll(itens, p), -100.0 * p / (100.0 + p)) == itens
  {
    var q := -100.0 * p / (100.0 + p);
    var mid := ReadjustAll(itens, p);
    var a := ReadjustAll(mid, q);
    forall k | 0 <= k < |itens| ensures a[k] == itens[k] {
      assert mid[k] == Readjusted(itens[k], p);
      assert a[k] == Readjusted(mid[k], q);
      FactorInverse(p);
      MulAssoc(itens[k].preco, Factor(p), Factor(q));
    }
  }

  /** One `.update({ preco }).eq('id', id)` call. */
  datatype PriceUpdate = PriceUpdate(id: Option<string>, preco: real)

  /** The calls `handleReajuste` issues: one per loaded item, in order, with its new price. */
  function PriceUpdates(itens: seq<Item>, p: real): (us: seq<PriceUpdate>)
    ensures |us| == |itens|
    ensures forall k :: 0 <= k < |itens| ==> us[k] == PriceUpdate(itens[k].id, itens[k].preco * Factor(p))
  {
    var atualizados := ReadjustAll(itens, p);
    Seqs.Map(atualizados, ToUpdate)
  }

  function ToUpdate(i: Item): PriceUpdate
  {
    PriceUpdate(i.id, i.preco)
  }

  /** The table after one update: rows with that id get the new price (an absent id matches none). */
  function ApplyUpdate(rows: seq<Item>, u: PriceUpdate): (r: seq<Item>)
    ensures |r| == |rows|
    ensures forall k :: 0 <= k < |rows| ==>
              r[k] == if u.id.Some? && rows[k].id == u.id then rows[k].(preco := u.preco) else rows[k]
  {
    Seqs.Map(rows, SetPriceWhere(u))
  }

  function SetPriceWhere(u: PriceUpdate): Item -> Item
  {
    (row: Item) => if u.id.Some? && row.id == u.id then row.(preco := u.preco) else row
  }

  /** The table after a sequence of updates, applied in order. */
  function ApplyAll(rows: seq<Item>, us: seq<PriceUpdate>): seq<Item>
  {
    if us == [] then rows else ApplyUpdate(ApplyAll(rows, us[..|us| - 1]), us[|us| - 1])
  }

  /** The price the last update for `id` writes, if any. */
  function LastPriceFor(us: seq<PriceUpdate>, id: Option<string>): Option<real>
  {
    if us == [] then None
    else if id.Some? && us[|us| - 1].id == id then Some(us[|us| - 1].preco)
    else LastPriceFor(us[..|us| - 1], id)
  }

  /** A row with the price of the last update naming its id, if there is one. */
  function AfterUpdates(row: Item, us: seq<PriceUpdate>): Item
  {
    match LastPriceFor(us, row.id)
    case Some(x) => row.(preco := x)
    case None => row
  }

  /** Each row ends with the price of the last update naming its id; every other field, the
      length and the order of the table are untouched. */
  lemma {:induction false} ApplyAllEffect(rows: seq<Item>, us: seq<PriceUpdate>)
    ensures |ApplyAll(rows, us)| == |rows|
    ensures forall k :: 0 <= k < |rows| ==> ApplyAll(rows, us)[k] == AfterUpdates(rows[k], us)
  {
    if us != [] {
      ApplyAllEffect(rows, us[..|us| - 1]);
    }
  }

  /** Each row's id appears at most once in the table. */
  predicate DistinctRowIds(rows: seq<Item>)
  {
    (forall k :: 0 <= k < |rows| ==> rows[k].id.Some?) &&
    (forall i, j :: 0 <= i < j < |rows| ==> rows[i].id != rows[j].id)
  }

  /** When every update naming `id` writes the same price `x`, that is the price `id` ends with. */
  lemma {:induction false} LastPriceForAgree(us: seq<PriceUpdate>, id: Option<string>, x: real)
    requires id.Some?
    requires exists k :: 0 <= k < |us| && us[k].id == id
    requires forall k :: 0 <= k < |us| && us[k].id == id ==> us[k].preco == x
    ensures LastPriceFor(us, id) == Some(x)
  {
    var n := |us| - 1;
    if us[n].id != id {
      var k :| 0 <= k < |us| && us[k].id == id;
      assert us[..n][k] == us[k];
      LastPriceForAgree(us[..n], id, x);
    }
  }

  /** An id no update names keeps its price. */
  lemma {:induction false} LastPriceForAbsent(us: seq<PriceUpdate>, id: Option<string>)
    requires forall k :: 0 <= k < |us| ==> us[k].id != id
    ensures LastPriceFor(us, id) == None
  {
    if us != [] {
      LastPriceForAbsent(us[..|us| - 1], id);
    }
  }

  /** On the synced view, the update for row `k` is the one built from row `k` itself, and there
      is none for a row of another user. */
  lemma SyncedRowPrice(rows: seq<Item>, view: seq<Item>, userId: string, p: real, k: nat)
    requires DistinctRowIds(rows) && k < |rows|
    requires forall v :: v in view <==> v in rows && v.user_id == userId
    ensures LastPriceFor(PriceUpdates(view, p), rows[k].id) ==
            if rows[k].user_id == userId then Some(rows[k].preco * Factor(p)) else None
  {
    var us := PriceUpdates(view, p);
    forall j | 0 <= j < |us| && us[j].id == rows[k].id
      ensures view[j] == rows[k] && us[j].preco == rows[k].preco * Factor(p)
    {
      assert view[j] in view;
      var i :| 0 <= i < |rows| && rows[i] == view[j];
      assert i == k;
    }
    if rows[k].user_id == userId {
      var j :| 0 <= j < |view| && view[j] == rows[k];
      assert us[j].id == rows[k].id;
      LastPriceForAgree(us, rows[k].id, rows[k].preco * Factor(p));
    } else {
      LastPriceForAbsent(us, rows[k].id);
    }
  }

  /** The adjustment on a screen that shows exactly the user's rows (newest first): every row of
      that user gets its price multiplied by `1 + p/100`, every other row is left as it was. */
  lemma ReajusteOnSyncedView(rows: seq<Item>, userId: string, p: real)
    requires DistinctRowIds(rows)
    ensures var after := ApplyAll(rows, PriceUpdates(NewestFirst(UserItens(rows, userId)), p));
            |after| == |rows| &&
            forall k :: 0 <= k < |rows| ==>
              after[k] == if rows[k].user_id == userId then Readjusted(rows[k], p) else rows[k]
  {
    var owned := UserItens(rows, userId);
    var view := NewestFirst(owned);
    var after := ApplyAll(rows, PriceUpdates(view, p));
    assert forall v :: v in view <==> v in rows && v.user_id == userId by {
      Seqs.FilterMember(rows, ItemOwnedBy(userId));
      Seqs.ReverseMember(owned);
    }
    ApplyAllEffect(rows, PriceUpdates(view, p));
    forall k | 0 <= k < |rows|
      ensures after[k] == if rows[k].user_id == userId then Readjusted(rows[k], p) else rows[k]
    {
      SyncedRowPrice(rows, view, userId, p, k);
      assert after[k] == AfterUpdates(rows[k], PriceUpdates(view, p));
    }
  }

  datatype ReajusteError = InvalidPercent

  function ReajusteMessage(e: ReajusteError): string
  {
    "Digite um percentual válido"
  }

  // ---------------------------------------------------------------------------------------------
  // The component

  class CatalogScreen {
    const db: Db
    const userId: string
    const isPro: bool
    var itens: seq<Item>
    var searchTerm: string
    var dialogOpen: bool
    var reajusteDialogOpen: bool
    var percentualReajuste: string
    var editingItem: Option<Item>
    var formData: Item

    constructor (db: Db, userId: string, isPro: bool)
      ensures this.db == db && this.userId == userId && this.isPro == isPro
      ensures itens == [] && searchTerm == "" && !dialogOpen && !reajusteDialogOpen
      ensures percentualReajuste == "" && editingItem.None? && formData == DefaultForm(userId)
    {
      this.db := db;
      this.userId := userId;
      this.isPro := isPro;
      itens, searchTerm := [], "";
      dialogOpen, reajusteDialogOpen, percentualReajuste := false, false, "";
      editingItem, formData := None, DefaultForm(userId);
    }

    /** `loadItens`: the user's rows, newest first. */
    method LoadItens()
      modifies this`itens
      ensures itens == NewestFirst(UserItens(db.itens, userId))
    {
      itens := NewestFirst(UserItens(db.itens, userId));
    }

    /** `resetForm`. */
    method ResetForm()
      modifies this`editingItem, this`formData
      ensures editingItem.None? && formData == DefaultForm(userId)
    {
      editingItem := None;
      formData := DefaultForm(userId);
    }

    /** `handleEdit(item)`: the form holds the item and the dialog opens. */
    method HandleEdit(item: Item)
      modifies this`editingItem, this`formData, this`dialogOpen
      ensures editingItem == Some(item) && formData == item && dialogOpen
    {
      editingItem := Some(item);
      formData := item;
      dialogOpen := true;
    }

    /** The item dialog's `onOpenChange`: closing it also resets the form. */
    method OnOpenChange(open: bool)
      modifies this`dialogOpen, this`editingItem, this`formData
      ensures dialogOpen == open
      ensures open ==> editingItem == old(editingItem) && formData == old(formData)
      ensures !open ==> editingItem.None? && formData == DefaultForm(userId)
    {
      dialogOpen := open;
      if !open {
        ResetForm();
      }
    }

    /** The list the screen shows: the loaded items narrowed by the search term. */
    function Shown(): (r: seq<Item>)
      reads this
      ensures forall x :: x in r <==> x in itens && ItemMatches(x, searchTerm)
    {
      FilterItens(itens, searchTerm)
    }

    /** `handleFotoUpload`: refused without PRO, leaving the photo as it was; otherwise the data
        URL the file reader produced (none when no file was chosen) becomes the photo. */
    method HandleFotoUpload(dataUrl: Option<string>) returns (err: Option<string>)
      modifies this`formData
      ensures !isPro ==> err == Some("Recurso disponível no plano PRO") && formData == old(formData)
      ensures isPro ==> err.None? &&
                        formData == if dataUrl.Some? then old(formData).(foto := dataUrl) else old(formData)
    {
      if !isPro {
        return Some("Recurso disponível no plano PRO");
      }
      err := None;
      if dataUrl.Some? {
        formData := formData.(foto := dataUrl);
      }
    }

    /** `handleSave`: the checks, then an update of the edited row or an insert; the dialog
        closes, the form resets and the list reloads. A refused save changes nothing. */
    method HandleSave(newId: string, now: string) returns (err: Option<ItemSaveError>)
      modifies this`editingItem, this`formData, this`dialogOpen, this`itens, db`itens
      ensures err == ValidateItem(old(formData), isPro)
      ensures err.Some? ==> db.itens == old(db.itens) && formData == old(formData) &&
                            editingItem == old(editingItem) && dialogOpen == old(dialogOpen) &&
                            itens == old(itens)
      ensures err.None? ==> db.itens == SaveItem(old(db.itens), old(editingItem), old(formData), newId, now) &&
                            !dialogOpen && editingItem.None? && formData == DefaultForm(userId) &&
                            itens == NewestFirst(UserItens(db.itens, userId))
    {
      err := ValidateItem(formData, isPro);
      if err.Some? {
        return;
      }
      db.itens := SaveItem(db.itens, editingItem, formData, newId, now);
      dialogOpen := false;
      ResetForm();
      LoadItens();
    }

    /** `handleDelete(id)`: only after the user confirmed. */
    method HandleDelete(id: string, confirmed: bool)
      modifies this`itens, db`itens
      ensures !confirmed ==> db.itens == old(db.itens) && itens == old(itens)
      ensures confirmed ==> db.itens == DeleteItem(old(db.itens), id) &&
                            itens == NewestFirst(UserItens(db.itens, userId))
    {
      if !confirmed {
        return;
      }
      db.itens := DeleteItem(db.itens, id);
      LoadItens();
    }

    /** `handleReajuste`: `parsed` is `parseFloat(percentualReajuste)` (None for NaN). A NaN or
        zero percentage is refused with no update; otherwise one price update is issued per loaded
        item, in order, and the list reloads. */
    method HandleReajuste(parsed: Option<real>) returns (issued: seq<PriceUpdate>, err: Option<ReajusteError>)
      modifies this`itens, this`reajusteDialogOpen, this`percentualReajuste, db`itens
      ensures parsed.None? || parsed.value == 0.0 ==>
                err == Some(InvalidPercent) && issued == [] && db.itens == old(db.itens) &&
                itens == old(itens) && reajusteDialogOpen == old(reajusteDialogOpen) &&
                percentualReajuste == old(percentualReajuste)
      ensures parsed.Some? && parsed.value != 0.0 ==>
                err.None? && issued == PriceUpdates(old(itens), parsed.value) &&
                db.itens == ApplyAll(old(db.itens), issued) &&
                !reajusteDialogOpen && percentualReajuste == "" &&
                itens == NewestFirst(UserItens(db.itens, userId))
    {
      if parsed.None? || parsed.value == 0.0 {
        return [], Some(InvalidPercent);
      }
      var percentual := parsed.value;
      var atualizados := ReadjustAll(itens, percentual);
      ghost var target := PriceUpdates(itens, percentual);
      issued := [];
      var i := 0;
      while i < |atualizados|
        invariant 0 <= i <= |atualizados| == |target|
        invariant issued == target[..i]
        invariant db.itens == ApplyAll(old(db.itens), issued)
      {
        var u := PriceUpdate(atualizados[i].id, atualizados[i].preco);
        db.itens := ApplyUpdate(db.itens, u);
        assert (issued + [u])[..i] == issued;
        issued := issued + [u];
        i := i + 1;
      }
      assert issued == target;
      err := None;
      reajusteDialogOpen := false;
      percentualReajuste := "";
      LoadItens();
    }
  }
}
