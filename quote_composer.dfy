/** The quote composer (src/app/dashboard/components/NovoOrcamento.tsx): a draft made of an
    ordered list of lines, each a snapshot of a catalog item, edited item by item and saved as
    a new quote with status `pendente`. */
module QuoteComposer {
  import opened Wrappers
  import opened Types
  import Seqs
  import Share
  import opened Backend

  // ---------------------------------------------------------------------------------------------
  // Draft invariants

  /** No two lines of the draft carry the same catalog id. */
  predicate DistinctIds(draft: seq<OrcamentoItem>)
  {
    forall i, j :: 0 <= i < j < |draft| ==> draft[i].item_id != draft[j].item_id
  }

  /** Each line's subtotal is its unit price times its quantity. */
  predicate ConsistentLine(l: OrcamentoItem)
  {
    l.subtotal == l.preco * l.quantidade as real
  }

  predicate Consistent(draft: seq<OrcamentoItem>)
  {
    forall k :: 0 <= k < |draft| ==> ConsistentLine(draft[k])
  }

  predicate HasLine(draft: seq<OrcamentoItem>, id: string)
  {
    exists k :: 0 <= k < |draft| && draft[k].item_id == id
  }

  function LineIdIs(id: string): OrcamentoItem -> bool
  {
    (l: OrcamentoItem) => l.item_id == id
  }

  function LineIdIsNot(id: string): OrcamentoItem -> bool
  {
    (l: OrcamentoItem) => l.item_id != id
  }

  // ---------------------------------------------------------------------------------------------
  // adicionarItem

  /** `itens.find(i => i.id === itemId)` over the loaded catalog. */
  function FindItem(catalog: seq<Item>, id: string): (r: Option<Item>)
    ensures r.None? <==> forall k :: 0 <= k < |catalog| ==> catalog[k].id != Some(id)
    ensures r.Some? ==> r.value in catalog && r.value.id == Some(id)
  {
    Seqs.Find(catalog, ItemIdIs(id))
  }

  datatype AddOutcome = Added | NotInCatalog | AlreadyAdded

  datatype AddResult = AddResult(draft: seq<OrcamentoItem>, outcome: AddOutcome)

  /** The toast shown for a refused add; an unknown id is refused silently. */
  function AddMessage(o: AddOutcome): Option<string>
  {
    if o == AlreadyAdded then Some("Item já adicionado") else None
  }

  /** `adicionarItem(itemId)`: an unknown id and an id already in the draft leave the draft as it
      is; otherwise one line is appended, copied from the catalog item with quantity 1. */
  function AddItem(catalog: seq<Item>, draft: seq<OrcamentoItem>, id: string): (r: AddResult)
    ensures r.outcome == NotInCatalog <==> forall k :: 0 <= k < |catalog| ==> catalog[k].id != Some(id)
    ensures r.outcome == AlreadyAdded <==> FindItem(catalog, id).Some? && HasLine(draft, id)
    ensures r.outcome != Added ==> r.draft == draft
    ensures r.outcome == Added ==>
              |r.draft| == |draft| + 1 && r.draft[..|draft|] == draft &&
              var it := FindItem(catalog, id).value;
              var l := r.draft[|draft|];
              l.item_id == id && l.nome == it.nome && l.descricao == it.descricao &&
              l.preco == it.preco && l.quantidade == 1 && l.subtotal == it.preco
  {
    match FindItem(catalog, id)
    case None => AddResult(draft, NotInCatalog)
    case Some(item) =>
      if Seqs.Find(draft, LineIdIs(id)).Some? then AddResult(draft, AlreadyAdded)
      else
        var line := OrcamentoItem(item.id.value, item.nome, item.descricao, 1, item.preco, item.preco);
        assert (draft + [line])[..|draft|] == draft;
        AddResult(draft + [line], Added)
  }

  /** Adding keeps the ids distinct and every subtotal consistent. */
  lemma AddItemKeepsInvariant(catalog: seq<Item>, draft: seq<OrcamentoItem>, id: string)
    requires DistinctIds(draft) && Consistent(draft)
    ensures DistinctIds(AddItem(catalog, draft, id).draft)
    ensures Consistent(AddItem(catalog, draft, id).draft)
  {
    var r := AddItem(catalog, draft, id);
    if r.outcome == Added {
      var n := |draft|;
      assert !HasLine(draft, id);
      forall k | 0 <= k < n ensures r.draft[k] == draft[k] {
        assert r.draft[..n][k] == draft[k];
      }
    }
  }

  /** Adding a line raises the total by the catalog price; a refused add leaves it. */
  lemma AddItemTotal(catalog: seq<Item>, draft: seq<OrcamentoItem>, id: string)
    ensures var r := AddItem(catalog, draft, id);
            Total(r.draft) == if r.outcome == Added then Total(draft) + FindItem(catalog, id).value.preco
                              else Total(draft)
  {
    var r := AddItem(catalog, draft, id);
    if r.outcome == Added {
      assert r.draft == draft + [r.draft[|draft|]];
      Seqs.SumByAppend(draft, [r.draft[|draft|]], Subtotal);
    }
  }

  // ---------------------------------------------------------------------------------------------
  // atualizarQuantidade

  /** `parseInt(e.target.value) || 1`: an unparsable entry (NaN) or 0 becomes 1; any other parsed
      value, negative ones included, is passed on. */
  function QuantityInput(parsed: Option<int>): (q: int)
    ensures q != 0
    ensures parsed.Some? && parsed.value != 0 ==> q == parsed.value
    ensures parsed.None? || parsed.value == 0 ==> q == 1
  {
    match parsed
    case Some(v) => if v != 0 then v else 1
    case None => 1
  }

  /** One line as `atualizarQuantidade` leaves it. */
  function SetLine(l: OrcamentoItem, id: string, q: int): OrcamentoItem
  {
    if l.item_id == id then l.(quantidade := q, subtotal := l.preco * q as real) else l
  }

  /** `atualizarQuantidade(itemId, q)`: the lines with that id get quantity `q` and the recomputed
      subtotal; every other line, the length and the order stay as they were. */
  function SetQuantity(draft: seq<OrcamentoItem>, id: string, q: int): (r: seq<OrcamentoItem>)
    ensures |r| == |draft|
    ensures forall k :: 0 <= k < |draft| ==> r[k].item_id == draft[k].item_id
    ensures forall k :: 0 <= k < |draft| && draft[k].item_id != id ==> r[k] == draft[k]
    ensures forall k :: 0 <= k < |draft| && draft[k].item_id == id ==>
              r[k].quantidade == q && r[k].subtotal == r[k].preco * q as real &&
              r[k] == draft[k].(quantidade := q, subtotal := draft[k].preco * q as real)
  {
    if draft == [] then [] else [SetLine(draft[0], id, q)] + SetQuantity(draft[1..], id, q)
  }

  /** Changing a quantity keeps the ids distinct and every subtotal consistent. */
  lemma SetQuantityKeepsInvariant(draft: seq<OrcamentoItem>, id: string, q: int)
    requires DistinctIds(draft) && Consistent(draft)
    ensures DistinctIds(SetQuantity(draft, id, q)) && Consistent(SetQuantity(draft, id, q))
  {
  }

  /** An id that is not in the draft changes nothing. */
  lemma SetQuantityAbsent(draft: seq<OrcamentoItem>, id: string, q: int)
    requires !HasLine(draft, id)
    ensures SetQuantity(draft, id, q) == draft
  {
    var r := SetQuantity(draft, id, q);
    forall k | 0 <= k < |draft| ensures r[k] == draft[k] {
      assert draft[k].item_id != id;
    }
  }

  /** With distinct ids, the total moves by exactly the change of the one edited line. */
  lemma SetQuantityTotal(draft: seq<OrcamentoItem>, id: string, q: int, k: nat)
    requires DistinctIds(draft) && k < |draft| && draft[k].item_id == id
    ensures Total(SetQuantity(draft, id, q)) == Total(draft) - draft[k].subtotal + draft[k].preco * q as real
  {
    var r := SetQuantity(draft, id, q);
    forall j | 0 <= j < |draft| && j != k ensures Subtotal(draft[j]) == Subtotal(r[j]) {
      assert draft[j].item_id != id;
    }
    Seqs.SumByUpdate(draft, r, Subtotal, k);
  }

  // ---------------------------------------------------------------------------------------------
  // removerItem

  /** `removerItem(itemId)`: keeps, in order, the lines whose id differs. */
  function RemoveItem(draft: seq<OrcamentoItem>, id: string): (r: seq<OrcamentoItem>)
    ensures forall l :: l in r <==> l in draft && l.item_id != id
    ensures !HasLine(r, id)
  {
    Seqs.FilterMember(draft, LineIdIsNot(id));
    var r := Seqs.Filter(draft, LineIdIsNot(id));
    assert forall k :: 0 <= k < |r| ==> r[k] in r;
    r
  }

  /** Removing keeps the ids distinct and every subtotal consistent. */
  lemma {:induction false} RemoveItemKeepsInvariant(draft: seq<OrcamentoItem>, id: string)
    requires DistinctIds(draft) && Consistent(draft)
    ensures DistinctIds(RemoveItem(draft, id)) && Consistent(RemoveItem(draft, id))
  {
    var r := RemoveItem(draft, id);
    forall k | 0 <= k < |r| ensures ConsistentLine(r[k]) {
      assert r[k] in draft;
    }
    if draft != [] {
      var rest := RemoveItem(draft[1..], id);
      RemoveItemKeepsInvariant(draft[1..], id);
      assert r == (if draft[0].item_id != id then [draft[0]] else []) + rest;
      forall l | l in rest ensures l.item_id != draft[0].item_id {
        var j :| 0 <= j < |draft[1..]| && draft[1..][j] == l;
        assert draft[j + 1] == l;
      }
    }
  }

  /** With distinct ids, removing the line at index `k` keeps exactly the others, in order. */
  lemma RemoveItemExact(draft: seq<OrcamentoItem>, id: string, k: nat)
    requires DistinctIds(draft) && k < |draft| && draft[k].item_id == id
    ensures RemoveItem(draft, id) == draft[..k] + draft[k + 1..]
    ensures Total(RemoveItem(draft, id)) == Total(draft) - draft[k].subtotal
  {
    Seqs.FilterDropsOne(draft, LineIdIsNot(id), k);
    assert draft == draft[..k] + [draft[k]] + draft[k + 1..];
    Seqs.SumByAppend(draft[..k] + [draft[k]], draft[k + 1..], Subtotal);
    Seqs.SumByAppend(draft[..k], [draft[k]], Subtotal);
    Seqs.SumByAppend(draft[..k], draft[k + 1..], Subtotal);
  }

  /** An id that is not in the draft changes nothing. */
  lemma RemoveItemAbsent(draft: seq<OrcamentoItem>, id: string)
    requires !HasLine(draft, id)
    ensures RemoveItem(draft, id) == draft
  {
    Seqs.FilterAll(draft, LineIdIsNot(id));
  }

  // ---------------------------------------------------------------------------------------------
  // calcularTotal

  function Subtotal(l: OrcamentoItem): real
  {
    l.subtotal
  }

  function LineValue(l: OrcamentoItem): real
  {
    l.preco * l.quantidade as real
  }

  /** `calcularTotal()`: the sum of the subtotals, left to right. */
  function Total(draft: seq<OrcamentoItem>): real
  {
    Seqs.SumBy(draft, Subtotal)
  }

  /** The total of an empty draft is 0, and totals add up over concatenation. */
  lemma TotalAdditive(a: seq<OrcamentoItem>, b: seq<OrcamentoItem>)
    ensures Total([]) == 0.0
    ensures Total(a + b) == Total(a) + Total(b)
  {
    Seqs.SumByAppend(a, b, Subtotal);
  }

  /** On a consistent draft the total is the sum of price times quantity over the lines. */
  lemma {:induction false} TotalOfConsistent(draft: seq<OrcamentoItem>)
    requires Consistent(draft)
    ensures Total(draft) == Seqs.SumBy(draft, LineValue)
  {
    if draft != [] {
      var n := |draft| - 1;
      assert Consistent(draft[..n]) by {
        forall j | 0 <= j < n ensures ConsistentLine(draft[..n][j]) {
          assert draft[..n][j] == draft[j];
        }
      }
      TotalOfConsistent(draft[..n]);
      assert ConsistentLine(draft[n]);
    }
  }

  // ---------------------------------------------------------------------------------------------
  // handleSalvar

  datatype SaveError = NoClient | NoItems | SignatureNeedsPro | InsertFailed

  function SaveMessage(e: SaveError): string
  {
    match e
    case NoClient => "Selecione um cliente"
    case NoItems => "Adicione pelo menos um item"
    case SignatureNeedsPro => "Assinatura digital disponível no plano PRO"
    case InsertFailed => "Erro ao salvar orçamento"
  }

  /** The checks of `handleSalvar` in their order: client, at least one line, signature gate. */
  function ValidateSave(cliente: string, draft: seq<OrcamentoItem>, assinatura: string, isPro: bool)
    : (r: Option<SaveError>)
    ensures r == Some(NoClient) <==> cliente == ""
    ensures r == Some(NoItems) <==> cliente != "" && draft == []
    ensures r == Some(SignatureNeedsPro) <==> cliente != "" && draft != [] && assinatura != "" && !isPro
    ensures r.None? <==> cliente != "" && draft != [] && (assinatura == "" || isPro)
  {
    if cliente == "" then Some(NoClient)
    else if |draft| == 0 then Some(NoItems)
    else if assinatura != "" && !isPro then Some(SignatureNeedsPro)
    else None
  }

  /** The record `handleSalvar` sends to the `orcamentos` table: status `pendente`, the draft's
      lines and total, and a signature only when the user is PRO. */
  function NewQuote(userId: string, cliente: string, draft: seq<OrcamentoItem>, observacoes: string,
                    assinatura: string, isPro: bool): (o: Orcamento)
    ensures o.status == Pendente && o.itens == draft && o.total == Total(o.itens)
    ensures o.user_id == userId && o.cliente_id == cliente && o.observacoes == observacoes
    ensures o.assinatura.Some? <==> isPro
    ensures isPro ==> o.assinatura == Some(assinatura)
    ensures o.id.None? && o.created_at.None? && o.cliente_nome.None?
  {
    Orcamento(None, userId, cliente, None, draft, Total(draft), Pendente, observacoes,
              if isPro then Some(assinatura) else None, None)
  }

  // ---------------------------------------------------------------------------------------------
  // The component

  class Composer {
    const db: Db
    const userId: string
    const isPro: bool
    var clientes: seq<Cliente>
    var itens: seq<Item>
    var clienteSelecionado: string
    var itensOrcamento: seq<OrcamentoItem>
    var observacoes: string
    var assinatura: string
    var loading: bool

    /** Between handlers: distinct ids, consistent subtotals, not saving. */
    ghost predicate Valid()
      reads this
    {
      DistinctIds(itensOrcamento) && Consistent(itensOrcamento) && !loading
    }

    constructor (db: Db, userId: string, isPro: bool)
      ensures this.db == db && this.userId == userId && this.isPro == isPro
      ensures clientes == [] && itens == [] && clienteSelecionado == "" && itensOrcamento == []
      ensures observacoes == "" && assinatura == "" && !loading
      ensures Valid()
    {
      this.db := db;
      this.userId := userId;
      this.isPro := isPro;
      clientes, itens := [], [];
      clienteSelecionado, itensOrcamento := "", [];
      observacoes, assinatura := "", "";
      loading := false;
    }

    /** `loadClientes` and `loadItens`: the user's rows (the ordering by name is not modelled). */
    method Load()
      modifies this`clientes, this`itens
      ensures clientes == UserClientes(db.clientes, userId) && itens == UserItens(db.itens, userId)
    {
      clientes := UserClientes(db.clientes, userId);
      itens := UserItens(db.itens, userId);
    }

    /** The client select's `onValueChange`. */
    method SelecionarCliente(id: string)
      modifies this`clienteSelecionado
      ensures clienteSelecionado == id
    {
      clienteSelecionado := id;
    }

    method AdicionarItem(id: string) returns (outcome: AddOutcome)
      requires Valid()
      modifies this`itensOrcamento
      ensures Valid()
      ensures itensOrcamento == AddItem(itens, old(itensOrcamento), id).draft
      ensures outcome == AddItem(itens, old(itensOrcamento), id).outcome
    {
      AddItemKeepsInvariant(itens, itensOrcamento, id);
      var r := AddItem(itens, itensOrcamento, id);
      itensOrcamento := r.draft;
      outcome := r.outcome;
    }

    /** The quantity input's `onChange` calling `atualizarQuantidade`. */
    method AtualizarQuantidade(id: string, parsed: Option<int>)
      requires Valid()
      modifies this`itensOrcamento
      ensures Valid()
      ensures itensOrcamento == SetQuantity(old(itensOrcamento), id, QuantityInput(parsed))
    {
      SetQuantityKeepsInvariant(itensOrcamento, id, QuantityInput(parsed));
      itensOrcamento := SetQuantity(itensOrcamento, id, QuantityInput(parsed));
    }

    method RemoverItem(id: string)
      requires Valid()
      modifies this`itensOrcamento
      ensures Valid()
      ensures itensOrcamento == RemoveItem(old(itensOrcamento), id)
    {
      RemoveItemKeepsInvariant(itensOrcamento, id);
      itensOrcamento := RemoveItem(itensOrcamento, id);
    }

    /** `limparFormulario`. */
    method LimparFormulario()
      modifies this`clienteSelecionado, this`itensOrcamento, this`observacoes, this`assinatura
      ensures clienteSelecionado == "" && itensOrcamento == [] && observacoes == "" && assinatura == ""
    {
      clienteSelecionado := "";
      itensOrcamento := [];
      observacoes := "";
      assinatura := "";
    }

    /** `handleSalvar`: the ordered checks, then one insert. `insertOk` is the backend's answer.
        The draft is cleared only when the insert succeeded; the loading flag ends false. */
    method HandleSalvar(insertOk: bool, newId: string, now: string) returns (err: Option<SaveError>)
      requires Valid()
      modifies this`clienteSelecionado, this`itensOrcamento, this`observacoes, this`assinatura,
               this`loading, db`orcamentos
      ensures Valid()
      ensures var v := ValidateSave(old(clienteSelecionado), old(itensOrcamento), old(assinatura), isPro);
              if v.Some? || !insertOk then
                err == (if v.Some? then v else Some(InsertFailed)) &&
                db.orcamentos == old(db.orcamentos) &&
                clienteSelecionado == old(clienteSelecionado) && itensOrcamento == old(itensOrcamento) &&
                observacoes == old(observacoes) && assinatura == old(assinatura)
              else
                err.None? &&
                db.orcamentos == old(db.orcamentos) +
                  [Stored(NewQuote(userId, old(clienteSelecionado), old(itensOrcamento), old(observacoes),
                                   old(assinatura), isPro), newId, now)] &&
                clienteSelecionado == "" && itensOrcamento == [] && observacoes == "" && assinatura == ""
    {
      err := ValidateSave(clienteSelecionado, itensOrcamento, assinatura, isPro);
      if err.Some? {
        return;
      }
      loading := true;
      var orcamento := NewQuote(userId, clienteSelecionado, itensOrcamento, observacoes, assinatura, isPro);
      if insertOk {
        db.orcamentos := db.orcamentos + [Stored(orcamento, newId, now)];
        LimparFormulario();
      } else {
        err := Some(InsertFailed);
      }
      loading := false;
    }

    /** `handleGerarPDF`'s check: a client is selected and the draft has a line. */
    method HandleGerarPdf() returns (ok: bool)
      ensures ok <==> clienteSelecionado != "" && |itensOrcamento| > 0
    {
      ok := clienteSelecionado != "" && |itensOrcamento| != 0;
    }

    /** `handleEnviarWhatsApp`: nothing when the selected client is not among the loaded ones;
        otherwise the link to the client's phone with the draft's total. */
    method HandleEnviarWhatsApp(fixed2: real -> string, encode: string -> string) returns (url: Option<string>)
      ensures url.None? <==> FindCliente(clientes, clienteSelecionado).None?
      ensures url.Some? ==>
                var c := FindCliente(clientes, clienteSelecionado).value;
                url.value == Share.WhatsAppUrl(c.telefone, Share.Mensagem(c.nome, Share.CorpoNovo,
                                                                          fixed2(Total(itensOrcamento))), encode)
    {
      var cliente := FindCliente(clientes, clienteSelecionado);
      if cliente.None? {
        return None;
      }
      var mensagem := Share.Mensagem(cliente.value.nome, Share.CorpoNovo, fixed2(Total(itensOrcamento)));
      url := Some(Share.WhatsAppUrl(cliente.value.telefone, mensagem, encode));
    }
  }
}
