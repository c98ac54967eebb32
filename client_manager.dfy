/** The client manager (src/app/dashboard/components/Clientes.tsx): search, save with the
    required-field check, edit/reset of the form and delete. */
module ClientManager {
  import opened Wrappers
  import opened Types
  import Seqs
  import opened Text
  import opened Backend

  /** The search keeps a client whose lower-cased name contains the lower-cased term, or whose
      tax id contains the term as typed (case-sensitive). */
  predicate ClienteMatches(c: Cliente, term: string)
  {
    Contains(Lower(c.nome), Lower(term)) || Contains(c.cnpj, term)
  }

  function ClienteMatcher(term: string): Cliente -> bool
  {
    (c: Cliente) => ClienteMatches(c, term)
  }

  /** The search effect: the matching clients, in their loaded order. */
  function FilterClientes(clientes: seq<Cliente>, term: string): (r: seq<Cliente>)
    ensures |r| <= |clientes|
    ensures forall x :: x in r <==> x in clientes && ClienteMatches(x, term)
  {
    Seqs.FilterMember(clientes, ClienteMatcher(term));
    Seqs.Filter(clientes, ClienteMatcher(term))
  }

  /** An empty search term keeps every client, in order. */
  lemma FilterClientesEmptyTerm(clientes: seq<Cliente>)
    ensures FilterClientes(clientes, "") == clientes
  {
    forall k | 0 <= k < |clientes| ensures ClienteMatcher("")(clientes[k]) {
      ContainsEmpty(clientes[k].cnpj);
    }
    Seqs.FilterAll(clientes, ClienteMatcher(""));
  }

  /** The tax-id test ignores case folding: a term with an upper-case letter never finds a tax
      id that has none, so such a client is kept only through its name, which is compared
      lower-cased. */
  lemma CnpjMatchIsCaseSensitive(c: Cliente, term: string, u: nat)
    requires forall k :: 0 <= k < |c.cnpj| ==> !('A' <= c.cnpj[k] <= 'Z')
    requires u < |term| && 'A' <= term[u] <= 'Z'
    ensures !Contains(c.cnpj, term)
    ensures ClienteMatches(c, term) <==> Contains(Lower(c.nome), Lower(term))
  {
    forall i | 0 <= i <= |c.cnpj| ensures !OccursAt(c.cnpj, term, i) {
      if i + |term| <= |c.cnpj| {
        assert c.cnpj[i..i + |term|][u] != term[u];
      }
    }
  }

  /** The empty form `resetForm` restores. */
  function DefaultForm(userId: string): (f: Cliente)
    ensures f.user_id == userId && f.nome == "" && f.telefone == "" && f.cnpj == "" && f.endereco == ""
    ensures f.id.None? && f.created_at.None?
  {
    Cliente(None, userId, "", "", "", "", None)
  }

  datatype ClienteSaveError = MissingRequired

  function ClienteSaveMessage(e: ClienteSaveError): string
  {
    "Preencha os campos obrigatórios"
  }

  /** `handleSave`'s check: a name and a phone are required. */
  function ValidateCliente(form: Cliente): (r: Option<ClienteSaveError>)
    ensures r.None? <==> form.nome != "" && form.telefone != ""
  {
    if form.nome == "" || form.telefone == "" then Some(MissingRequired) else None
  }

  /** A form written over an existing row by `.update(formData)`: fields the form leaves
      undefined keep the row's value. */
  function Overwrite(row: Cliente, form: Cliente): Cliente
  {
    form.(id := if form.id.Some? then form.id else row.id,
          created_at := if form.created_at.Some? then form.created_at else row.created_at)
  }

  /** A form as `.insert(formData)` stores it, with the backend's id and timestamp. */
  function Inserted(form: Cliente, newId: string, now: string): Cliente
  {
    form.(id := if form.id.Some? then form.id else Some(newId),
          created_at := if form.created_at.Some? then form.created_at else Some(now))
  }

  /** The `clientes` table after `handleSave`'s write (see `Backend.SaveById`). */
  function SaveCliente(rows: seq<Cliente>, editing: Option<Cliente>, form: Cliente, newId: string, now: string): seq<Cliente>
  {
    SaveById(rows, editing, (x: Cliente) => x.id, (row: Cliente) => Overwrite(row, form), Inserted(form, newId, now))
  }

  /** An edit never adds or removes a row: the table keeps its ids, in order. */
  lemma SaveClienteEditKeepsIds(rows: seq<Cliente>, e: Cliente, form: Cliente, newId: string, now: string)
    requires form.id.None? || form.id == e.id
    ensures var r := SaveCliente(rows, Some(e), form, newId, now);
            |r| == |rows| && forall k :: 0 <= k < |rows| ==> r[k].id == rows[k].id
  {
  }

  /** A new client is appended after the existing rows with every field of the form, and a
      form without an id gets the backend's fresh id. */
  lemma SaveClienteInsert(rows: seq<Cliente>, form: Cliente, newId: string, now: string)
    ensures var r := SaveCliente(rows, None, form, newId, now);
            |r| == |rows| + 1 && r[..|rows|] == rows &&
            r[|rows|] == form.(id := r[|rows|].id, created_at := r[|rows|].created_at) &&
            r[|rows|].id.Some? && (form.id.None? ==> r[|rows|].id == Some(newId))
  {
    var r := SaveCliente(rows, None, form, newId, now);
    assert r[..|rows|] == rows;
  }

  function ClienteIdIsNot(id: string): Cliente -> bool
  {
    (c: Cliente) => c.id != Some(id)
  }

  /** The `clientes` table after `.delete().eq('id', id)`. */
  function DeleteCliente(rows: seq<Cliente>, id: string): (r: seq<Cliente>)
    ensures forall x :: x in r <==> x in rows && x.id != Some(id)
  {
    Seqs.FilterMember(rows, ClienteIdIsNot(id));
    Seqs.Filter(rows, ClienteIdIsNot(id))
  }

  class ClientScreen {
    const db: Db
    const userId: string
    var clientes: seq<Cliente>
    var searchTerm: string
    var dialogOpen: bool
    var editingCliente: Option<Cliente>
    var formData: Cliente

    constructor (db: Db, userId: string)
      ensures this.db == db && this.userId == userId
      ensures clientes == [] && searchTerm == "" && !dialogOpen && editingCliente.None?
      ensures formData == DefaultForm(userId)
    {
      this.db := db;
      this.userId := userId;
      clientes, searchTerm, dialogOpen := [], "", false;
      editingCliente, formData := None, DefaultForm(userId);
    }

    /** `loadClientes`: the user's rows, newest first. */
    method LoadClientes()
      modifies this`clientes
      ensures clientes == NewestFirst(UserClientes(db.clientes, userId))
    {
      clientes := NewestFirst(UserClientes(db.clientes, userId));
    }

    /** `resetForm`. */
    method ResetForm()
      modifies this`editingCliente, this`formData
      ensures editingCliente.None? && formData == DefaultForm(userId)
    {
      editingCliente := None;
      formData := DefaultForm(userId);
    }

    /** `handleEdit(cliente)`: the form holds the client and the dialog opens. */
    method HandleEdit(cliente: Cliente)
      modifies this`editingCliente, this`formData, this`dialogOpen
      ensures editingCliente == Some(cliente) && formData == cliente && dialogOpen
    {
      editingCliente := Some(cliente);
      formData := cliente;
      dialogOpen := true;
    }

    /** `handleSave`: the check, then an update of the edited row or an insert; the dialog
        closes, the form resets to the empty client of this user and the list reloads. */
    method HandleSave(newId: string, now: string) returns (err: Option<ClienteSaveError>)
      modifies this`editingCliente, this`formData, this`dialogOpen, this`clientes, db`clientes
      ensures err == ValidateCliente(old(formData))
      ensures err.Some? ==> db.clientes == old(db.clientes) && formData == old(formData) &&
                            editingCliente == old(editingCliente) && dialogOpen == old(dialogOpen) &&
                            clientes == old(clientes)
      ensures err.None? ==> db.clientes == SaveCliente(old(db.clientes), old(editingCliente), old(formData), newId, now) &&
                            !dialogOpen && editingCliente.None? && formData == DefaultForm(userId) &&
                            clientes == NewestFirst(UserClientes(db.clientes, userId))
    {
      err := ValidateCliente(formData);
      if err.Some? {
        return;
      }
      db.clientes := SaveCliente(db.clientes, editingCliente, formData, newId, now);
      dialogOpen := false;
      ResetForm();
      LoadClientes();
    }

    /** The dialog's `onOpenChange`: closing it also resets the form. */
    method OnOpenChange(open: bool)
      modifies this`dialogOpen, this`editingCliente, this`formData
      ensures dialogOpen == open
      ensures open ==> editingCliente == old(editingCliente) && formData == old(formData)
      ensures !open ==> editingCliente.None? && formData == DefaultForm(userId)
    {
      dialogOpen := open;
      if !open {
        ResetForm();
      }
    }

    /** The list the screen shows: the loaded clients narrowed by the search term. */
    function Shown(): (r: seq<Cliente>)
      reads this
      ensures forall x :: x in r <==> x in clientes && ClienteMatches(x, searchTerm)
    {
      FilterClientes(clientes, searchTerm)
    }

    /** `handleDelete(id)`: only after the user confirmed. */
    method HandleDelete(id: string, confirmed: bool)
      modifies this`clientes, db`clientes
      ensures !confirmed ==> db.clientes == old(db.clientes) && clientes == old(clientes)
      ensures confirmed ==> db.clientes == DeleteCliente(old(db.clientes), id) &&
                            clientes == NewestFirst(UserClientes(db.clientes, userId))
    {
      if !confirmed {
        return;
      }
      db.clientes := DeleteCliente(db.clientes, id);
      LoadClientes();
    }
  }
}
