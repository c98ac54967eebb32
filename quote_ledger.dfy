/** The saved-quotes list (src/app/dashboard/components/Orcamentos.tsx): search by client name,
    delete, duplicate, the status badge, the client-name column and the WhatsApp share link. */
module QuoteLedger {
  import opened Wrappers
  import opened Types
  import Seqs
  import opened Text
  import Share
  import opened Backend

  // ---------------------------------------------------------------------------------------------
  // Search

  /** A quote is kept when its client resolves and the client's lower-cased name contains the
      lower-cased term. A quote whose client is not among the loaded ones never matches. */
  predicate OrcamentoMatches(o: Orcamento, clientes: seq<Cliente>, term: string)
  {
    match FindCliente(clientes, o.cliente_id)
    case None => false
    case Some(c) => Contains(Lower(c.nome), Lower(term))
  }

  function OrcamentoMatcher(clientes: seq<Cliente>, term: string): Orcamento -> bool
  {
    (o: Orcamento) => OrcamentoMatches(o, clientes, term)
  }

  /** The shown list: the matching quotes, in their loaded order. */
  function FilterOrcamentos(orcamentos: seq<Orcamento>, clientes: seq<Cliente>, term: string)
    : (r: seq<Orcamento>)
    ensures |r| <= |orcamentos|
    ensures forall x :: x in r <==> x in orcamentos && OrcamentoMatches(x, clientes, term)
  {
    Seqs.FilterMember(orcamentos, OrcamentoMatcher(clientes, term));
    Seqs.Filter(orcamentos, OrcamentoMatcher(clientes, term))
  }

  /** With an empty term the list shows exactly the quotes whose client resolves: a quote of a
      deleted client disappears from the list even before anything is typed. */
  lemma FilterOrcamentosEmptyTerm(orcamentos: seq<Orcamento>, clientes: seq<Cliente>)
    ensures forall x :: x in FilterOrcamentos(orcamentos, clientes, "") <==>
                          x in orcamentos && FindCliente(clientes, x.cliente_id).Some?
  {
    forall x | x in orcamentos && FindCliente(clientes, x.cliente_id).Some?
      ensures OrcamentoMatches(x, clientes, "")
    {
      ContainsEmpty(Lower(FindCliente(clientes, x.cliente_id).value.nome));
    }
  }

  /** When every quote's client resolves, the empty term keeps the whole list, in order. */
  lemma FilterOrcamentosAllResolved(orcamentos: seq<Orcamento>, clientes: seq<Cliente>)
    requires forall k :: 0 <= k < |orcamentos| ==> FindCliente(clientes, orcamentos[k].cliente_id).Some?
    ensures FilterOrcamentos(orcamentos, clientes, "") == orcamentos
  {
    forall k | 0 <= k < |orcamentos| ensures OrcamentoMatcher(clientes, "")(orcamentos[k]) {
      ContainsEmpty(Lower(FindCliente(clientes, orcamentos[k].cliente_id).value.nome));
    }
    Seqs.FilterAll(orcamentos, OrcamentoMatcher(clientes, ""));
  }

  // ---------------------------------------------------------------------------------------------
  // Columns

  const ClienteNaoEncontrado := "Cliente não encontrado"

  /** `getClienteNome`: the client's name, or the fallback text when the client does not resolve
      or its name is empty (`||` treats the empty string as missing). */
  function ClienteNome(clientes: seq<Cliente>, clienteId: string): (r: string)
    ensures r != ""
    ensures (forall k :: 0 <= k < |clientes| ==> clientes[k].id != Some(clienteId)) ==> r == ClienteNaoEncontrado
    ensures r != ClienteNaoEncontrado ==>
              exists c :: c in clientes && c.id == Some(clienteId) && c.nome == r
  {
    match FindCliente(clientes, clienteId)
    case None => ClienteNaoEncontrado
    case Some(c) => if c.nome == "" then ClienteNaoEncontrado else c.nome
  }

  /** The column shows the first client with that id whenever its name is not empty. */
  lemma ClienteNomeOfResolved(clientes: seq<Cliente>, k: nat)
    requires k < |clientes| && clientes[k].id.Some? && clientes[k].nome != ""
    requires forall j :: 0 <= j < k ==> clientes[j].id != clientes[k].id
    ensures ClienteNome(clientes, clientes[k].id.value) == clientes[k].nome
  {
    var id := clientes[k].id.value;
    var found := FindCliente(clientes, id);
    assert found.Some?;
    var i :| 0 <= i < |clientes| && clientes[i] == found.value && ClienteIdIs(id)(clientes[i]) &&
             forall j :: 0 <= j < i ==> !ClienteIdIs(id)(clientes[j]);
    assert ClienteIdIs(id)(clientes[k]);
    assert i == k;
  }

  /** One status badge: its label (`caption`) and its style classes. */
  datatype Badge = Badge(caption: string, className: string)

  const PendenteBadge := Badge("Pendente", "bg-yellow-100 text-yellow-800")
  const AprovadoBadge := Badge("Aprovado", "bg-green-100 text-green-800")
  const RejeitadoBadge := Badge("Rejeitado", "bg-red-100 text-red-800")

  /** `getStatusBadge(status)`: the badge of a stored status text; any other text shows as
      pending. */
  function StatusBadge(status: string): (r: Badge)
    ensures status == StatusName(Aprovado) ==> r == AprovadoBadge
    ensures status == StatusName(Rejeitado) ==> r == RejeitadoBadge
    ensures status != StatusName(Aprovado) && status != StatusName(Rejeitado) ==> r == PendenteBadge
  {
    if status == "aprovado" then AprovadoBadge
    else if status == "rejeitado" then RejeitadoBadge
    else PendenteBadge
  }

  /** The label a reader is meant to see for each status. */
  function StatusLabel(s: Status): string
  {
    match s
    case Pendente => "Pendente"
    case Aprovado => "Aprovado"
    case Rejeitado => "Rejeitado"
  }

  /** Each stored status shows its own label, and different statuses show different badges. */
  lemma StatusBadgeFaithful(a: Status, b: Status)
    ensures StatusBadge(StatusName(a)).caption == StatusLabel(a)
    ensures StatusBadge(StatusName(a)) == StatusBadge(StatusName(b)) <==> a == b
  {
  }

  // ---------------------------------------------------------------------------------------------
  // Duplicate and delete

  /** `const { id, created_at, ...orcamentoData } = orcamento`: the quote without its id and its
      timestamp. */
  function DuplicateRecord(o: Orcamento): (r: Orcamento)
    ensures r.id.None? && r.created_at.None?
    ensures r.user_id == o.user_id && r.cliente_id == o.cliente_id && r.cliente_nome == o.cliente_nome
    ensures r.itens == o.itens && r.total == o.total && r.status == o.status
    ensures r.observacoes == o.observacoes && r.assinatura == o.assinatura
  {
    o.(id := None, created_at := None)
  }

  /** Duplicating a duplicate changes nothing more, and a stored copy differs from the original
      in its id and timestamp only: it is the original exactly when the backend handed out the
      same id and time again. */
  lemma DuplicateRecordProperties(o: Orcamento, newId: string, now: string)
    ensures DuplicateRecord(DuplicateRecord(o)) == DuplicateRecord(o)
    ensures DuplicateRecord(Stored(DuplicateRecord(o), newId, now)) == DuplicateRecord(o)
    ensures Stored(DuplicateRecord(o), newId, now) == o <==> o.id == Some(newId) && o.created_at == Some(now)
  {
  }

  /** Right after a duplicate of one of the user's quotes, the copy heads the newest-first
      list. */
  lemma DuplicateShownFirst(rows: seq<Orcamento>, userId: string, o: Orcamento, newId: string, now: string)
    requires o.user_id == userId
    ensures var shown := NewestFirst(UserOrcamentos(rows + [Stored(DuplicateRecord(o), newId, now)], userId));
            |shown| > 0 && shown[0] == Stored(DuplicateRecord(o), newId, now)
  {
    var copy := Stored(DuplicateRecord(o), newId, now);
    Seqs.FilterAppend(rows, [copy], OrcamentoOwnedBy(userId));
    assert Seqs.Filter([copy], OrcamentoOwnedBy(userId)) == [copy];
  }

  function OrcamentoIdIsNot(id: string): Orcamento -> bool
  {
    (o: Orcamento) => o.id != Some(id)
  }

  /** The `orcamentos` table after `.delete().eq('id', id)`. */
  function DeleteOrcamento(rows: seq<Orcamento>, id: string): (r: seq<Orcamento>)
    ensures forall x :: x in r <==> x in rows && x.id != Some(id)
  {
    Seqs.FilterMember(rows, OrcamentoIdIsNot(id));
    Seqs.Filter(rows, OrcamentoIdIsNot(id))
  }

  // ---------------------------------------------------------------------------------------------
  // The component

  class LedgerScreen {
    const db: Db
    const userId: string
    var orcamentos: seq<Orcamento>
    var clientes: seq<Cliente>
    var searchTerm: string

    constructor (db: Db, userId: string)
      ensures this.db == db && this.userId == userId
      ensures orcamentos == [] && clientes == [] && searchTerm == ""
    {
      this.db := db;
      this.userId := userId;
      orcamentos, clientes, searchTerm := [], [], "";
    }

    /** `loadOrcamentos`: the user's quotes, newest first. */
    method LoadOrcamentos()
      modifies this`orcamentos
      ensures orcamentos == NewestFirst(UserOrcamentos(db.orcamentos, userId))
    {
      orcamentos := NewestFirst(UserOrcamentos(db.orcamentos, userId));
    }

    /** `loadClientes`: the user's clients, in table order (this query has no ordering). */
    method LoadClientes()
      modifies this`clientes
      ensures clientes == UserClientes(db.clientes, userId)
    {
      clientes := UserClientes(db.clientes, userId);
    }

    /** The list the screen shows. */
    function Shown(): (r: seq<Orcamento>)
      reads this
      ensures forall x :: x in r <==> x in orcamentos && OrcamentoMatches(x, clientes, searchTerm)
    {
      FilterOrcamentos(orcamentos, clientes, searchTerm)
    }

    /** `handleDelete(id)`: only after the user confirmed. */
    method HandleDelete(id: string, confirmed: bool)
      modifies this`orcamentos, db`orcamentos
      ensures !confirmed ==> db.orcamentos == old(db.orcamentos) && orcamentos == old(orcamentos)
      ensures confirmed ==> db.orcamentos == DeleteOrcamento(old(db.orcamentos), id) &&
                            orcamentos == NewestFirst(UserOrcamentos(db.orcamentos, userId))
    {
      if !confirmed {
        return;
      }
      db.orcamentos := DeleteOrcamento(db.orcamentos, id);
      LoadOrcamentos();
    }

    /** `handleDuplicate(orcamento)`: a copy without id and timestamp is inserted and the list
        reloads. */
    method HandleDuplicate(o: Orcamento, newId: string, now: string)
      modifies this`orcamentos, db`orcamentos
      ensures db.orcamentos == old(db.orcamentos) + [Stored(DuplicateRecord(o), newId, now)]
      ensures orcamentos == NewestFirst(UserOrcamentos(db.orcamentos, userId))
    {
      db.orcamentos := db.orcamentos + [Stored(DuplicateRecord(o), newId, now)];
      LoadOrcamentos();
    }

    /** `handleEnviarWhatsApp(orcamento)`: nothing when the quote's client does not resolve;
        otherwise the link to the client's phone with the saved total. */
    method HandleEnviarWhatsApp(o: Orcamento, fixed2: real -> string, encode: string -> string)
      returns (url: Option<string>)
      ensures url.None? <==> FindCliente(clientes, o.cliente_id).None?
      ensures url.Some? ==>
                var c := FindCliente(clientes, o.cliente_id).value;
                url.value == Share.WhatsAppUrl(c.telefone, Share.Mensagem(c.nome, Share.CorpoSalvo, fixed2(o.total)),
                                               encode)
    {
      var cliente := FindCliente(clientes, o.cliente_id);
      if cliente.None? {
        return None;
      }
      var mensagem := Share.Mensagem(cliente.value.nome, Share.CorpoSalvo, fixed2(o.total));
      url := Some(Share.WhatsAppUrl(cliente.value.telefone, mensagem, encode));
    }
  }
}
