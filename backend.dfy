/** The hosted backend, reduced to one in-memory table per collection. Rows are kept in insertion
    order; the backend assigns `id` and `created_at` on insert, so a fresh id and the insertion
    time are parameters of the handlers that insert. */
module Backend {
  import opened Wrappers
  import opened Types
  import Seqs

  /** `.order('created_at', { ascending: false })`: rows are appended at insertion time and
      `created_at` is never rewritten, so newest-first is the reverse of table order. */
  function NewestFirst<T>(rows: seq<T>): seq<T>
  {
    Seqs.Reverse(rows)
  }

  /** The rows a `.eq('user_id', userId)` query selects, in table order. */
  function UserClientes(rows: seq<Cliente>, userId: string): seq<Cliente>
  {
    Seqs.Filter(rows, ClienteOwnedBy(userId))
  }

  function ClienteOwnedBy(userId: string): Cliente -> bool
  {
    (c: Cliente) => c.user_id == userId
  }

  function UserItens(rows: seq<Item>, userId: string): seq<Item>
  {
    Seqs.Filter(rows, ItemOwnedBy(userId))
  }

  function ItemOwnedBy(userId: string): Item -> bool
  {
    (i: Item) => i.user_id == userId
  }

  function UserOrcamentos(rows: seq<Orcamento>, userId: string): seq<Orcamento>
  {
    Seqs.Filter(rows, OrcamentoOwnedBy(userId))
  }

  function OrcamentoOwnedBy(userId: string): Orcamento -> bool
  {
    (o: Orcamento) => o.user_id == userId
  }

  function UserEmpresas(rows: seq<EmpresaInfo>, userId: string): seq<EmpresaInfo>
  {
    Seqs.Filter(rows, EmpresaOwnedBy(userId))
  }

  function EmpresaOwnedBy(userId: string): EmpresaInfo -> bool
  {
    (e: EmpresaInfo) => e.user_id == userId
  }

  /** `.eq('user_id', userId).single()`: the row when exactly one row matches, and no data
      otherwise (none or several). */
  function SingleEmpresa(rows: seq<EmpresaInfo>, userId: string): (r: Option<EmpresaInfo>)
    ensures r.Some? <==> |UserEmpresas(rows, userId)| == 1
    ensures r.Some? ==> r.value in rows && r.value.user_id == userId
  {
    var owned := UserEmpresas(rows, userId);
    if |owned| == 1 then Some(owned[0]) else None
  }

  /** The write of a form screen's `handleSave`: when a row is being edited,
      `.update(form).eq('id', editing.id)` rewrites the rows carrying its id (none when that id
      is undefined); otherwise `.insert(form)` appends the stored form. */
  function SaveById<T>(rows: seq<T>, editing: Option<T>, idOf: T -> Option<string>, overwrite: T -> T,
                       inserted: T): (r: seq<T>)
    ensures editing.None? ==> r == rows + [inserted]
    ensures editing.Some? ==> |r| == |rows|
    ensures editing.Some? ==> forall k :: 0 <= k < |rows| ==>
              r[k] == if idOf(editing.value).Some? && idOf(rows[k]) == idOf(editing.value)
                      then overwrite(rows[k]) else rows[k]
  {
    match editing
    case None => rows + [inserted]
    case Some(e) => Seqs.Map(rows, (row: T) => if idOf(e).Some? && idOf(row) == idOf(e) then overwrite(row) else row)
  }

  /** A quote row as the backend stores it on insert: with the id and the timestamp it
      assigns. */
  function Stored(o: Orcamento, newId: string, now: string): Orcamento
  {
    o.(id := Some(newId), created_at := Some(now))
  }

  class Db {
    var users: seq<User>
    var empresas: seq<EmpresaInfo>
    var clientes: seq<Cliente>
    var itens: seq<Item>
    var orcamentos: seq<Orcamento>

    constructor ()
      ensures users == [] && empresas == [] && clientes == [] && itens == [] && orcamentos == []
    {
      users, empresas, clientes, itens, orcamentos := [], [], [], [], [];
    }
  }
}
