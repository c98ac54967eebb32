/** The company profile (src/app/dashboard/components/MinhaEmpresa.tsx): one `empresa_info` row
    per user, loaded with a single-row query, filled in from the public tax-id registry, and
    saved as an update when the row exists and as an insert otherwise. The registry lookup is a
    parameter: a function from the digits sent to the answer received. */
module CompanyProfile {
  import opened Wrappers
  import opened Types
  import Seqs
  import opened Text
  import opened Backend

  /** The empty profile the screen starts with. */
  function DefaultEmpresa(userId: string): (e: EmpresaInfo)
    ensures e.id.None? && e.user_id == userId && e.logo.None?
    ensures e.nome == "" && e.telefone == "" && e.whatsapp == "" && e.cnpj == ""
    ensures e.endereco == "" && e.responsavel == "" && e.email == ""
  {
    EmpresaInfo(None, userId, "", None, "", "", "", "", "", "")
  }

  // ---------------------------------------------------------------------------------------------
  // Tax-id lookup

  /** The registry's answer: unreachable (the request or its JSON failed), `status: 'ERROR'`,
      or the company's fields, each possibly missing. */
  datatype Registry =
    | Unreachable
    | NotFound
    | Found(nome: Option<string>, telefone: Option<string>, email: Option<string>,
            logradouro: Option<string>, numero: Option<string>, bairro: Option<string>,
            municipio: Option<string>, uf: Option<string>)

  /** The shortest text the lookup accepts. */
  const MinCnpjLength := 14

  /** The digits sent to the registry, or none when the typed text is shorter than 14
      characters: the check counts every character, before the non-digits are stripped. */
  function CnpjQuery(cnpj: string): (r: Option<string>)
    ensures r.None? <==> |cnpj| < MinCnpjLength
    ensures r.Some? ==> r.value == OnlyDigits(cnpj)
  {
    if |cnpj| < MinCnpjLength then None else Some(OnlyDigits(cnpj))
  }

  /** The length check is on the raw text, not on the digits: fourteen punctuation marks pass
      it and send an empty query, while thirteen digits are refused. */
  lemma CnpjQueryCountsRawText()
    ensures CnpjQuery("..............") == Some("")
    ensures CnpjQuery("1234567800019") == None
  {
    Seqs.FilterNone("..............", IsDigit);
  }

  /** `x || fallback` on a text field: a missing or empty value falls back. */
  function OrElse(x: Option<string>, fallback: string): (r: string)
    ensures x.Some? && x.value != "" ==> r == x.value
    ensures x.None? || x.value == "" ==> r == fallback
  {
    if x.Some? && x.value != "" then x.value else fallback
  }

  /** A field as a template literal renders it: a missing one prints as `undefined`. */
  function Render(x: Option<string>): string
  {
    match x
    case Some(s) => s
    case None => "undefined"
  }

  /** `${logradouro}, ${numero} - ${bairro}, ${municipio}/${uf}`: never empty, whatever is
      missing, since the separators alone are eight characters. */
  function EnderecoTemplate(d: Registry): (r: string)
    requires d.Found?
    ensures |r| >= 8
  {
    Render(d.logradouro) + ", " + Render(d.numero) + " - " + Render(d.bairro) + ", " +
    Render(d.municipio) + "/" + Render(d.uf)
  }

  /** The merge into the previous profile: nome, telefone and email from the answer when present
      and non-empty, the address from the template (its `|| prev.endereco` can never apply),
      every other field as before. */
  function MergeRegistry(prev: EmpresaInfo, d: Registry): (r: EmpresaInfo)
    requires d.Found?
    ensures r.nome == OrElse(d.nome, prev.nome)
    ensures r.telefone == OrElse(d.telefone, prev.telefone)
    ensures r.email == OrElse(d.email, prev.email)
    ensures r.endereco == EnderecoTemplate(d) && r.endereco != ""
    ensures r.id == prev.id && r.user_id == prev.user_id && r.logo == prev.logo
    ensures r.whatsapp == prev.whatsapp && r.cnpj == prev.cnpj && r.responsavel == prev.responsavel
  {
    var endereco := EnderecoTemplate(d);
    prev.(nome := OrElse(d.nome, prev.nome),
          telefone := OrElse(d.telefone, prev.telefone),
          endereco := if endereco != "" then endereco else prev.endereco,
          email := OrElse(d.email, prev.email))
  }

  /** Loading the same answer twice leaves the profile as after the first time, and a previous
      address never survives a lookup. */
  lemma MergeRegistryIdempotent(prev: EmpresaInfo, other: EmpresaInfo, d: Registry)
    requires d.Found?
    ensures MergeRegistry(MergeRegistry(prev, d), d) == MergeRegistry(prev, d)
    ensures MergeRegistry(prev, d).endereco == MergeRegistry(other, d).endereco
  {
  }

  /** A found answer whose fields are all empty keeps nome, telefone and email, and a missing
      address still replaces the previous one, with `undefined` in every slot. */
  lemma MergeRegistryEmptyAnswer(prev: EmpresaInfo)
    ensures var d := Found(Some(""), Some(""), Some(""), None, None, None, None, None);
            var r := MergeRegistry(prev, d);
            r.nome == prev.nome && r.telefone == prev.telefone && r.email == prev.email &&
            r.endereco == "undefined" + ", " + "undefined" + " - " + "undefined" + ", " + "undefined" + "/" + "undefined"
  {
    var d := Found(Some(""), Some(""), Some(""), None, None, None, None, None);
  }

  // ---------------------------------------------------------------------------------------------
  // The `empresa_info` table

  /** `.update(empresa).eq('user_id', userId)` on one row: the profile's fields, keeping the row's
      id when the profile has none. */
  function Overwrite(row: EmpresaInfo, e: EmpresaInfo): EmpresaInfo
  {
    e.(id := if e.id.Some? then e.id else row.id)
  }

  /** `.insert(empresa)`: the backend assigns the id when the profile has none. */
  function Inserted(e: EmpresaInfo, newId: string): EmpresaInfo
  {
    e.(id := if e.id.Some? then e.id else Some(newId))
  }

  function UpdateWhereUser(userId: string, e: EmpresaInfo): EmpresaInfo -> EmpresaInfo
  {
    (row: EmpresaInfo) => if row.user_id == userId then Overwrite(row, e) else row
  }

  /** The table after `handleSave`: when the single-row lookup finds the user's row, every row of
      the user is overwritten; otherwise the profile is appended. */
  function SaveEmpresa(rows: seq<EmpresaInfo>, userId: string, e: EmpresaInfo, newId: string)
    : (r: seq<EmpresaInfo>)
    ensures SingleEmpresa(rows, userId).None? ==> r == rows + [Inserted(e, newId)]
    ensures SingleEmpresa(rows, userId).Some? ==> |r| == |rows|
    ensures SingleEmpresa(rows, userId).Some? ==>
              forall k :: 0 <= k < |rows| ==>
                r[k] == if rows[k].user_id == userId then Overwrite(rows[k], e) else rows[k]
  {
    if SingleEmpresa(rows, userId).Some? then Seqs.Map(rows, UpdateWhereUser(userId, e))
    else rows + [Inserted(e, newId)]
  }

  /** Saving a profile never touches another user's rows. */
  lemma SaveEmpresaKeepsOthers(rows: seq<EmpresaInfo>, userId: string, e: EmpresaInfo, newId: string, other: string)
    requires e.user_id == userId && other != userId
    ensures UserEmpresas(SaveEmpresa(rows, userId, e, newId), other) == UserEmpresas(rows, other)
  {
    var r := SaveEmpresa(rows, userId, e, newId);
    var f := UpdateWhereUser(userId, e);
    if SingleEmpresa(rows, userId).Some? {
      Seqs.FilterMapCommute(rows, f, EmpresaOwnedBy(other));
      var theirs := UserEmpresas(rows, other);
      assert UserEmpresas(r, other) == Seqs.Map(theirs, f);
      forall k | 0 <= k < |theirs| ensures f(theirs[k]) == theirs[k] {
        assert theirs[k] in theirs;
      }
    } else {
      Seqs.FilterAppend(rows, [Inserted(e, newId)], EmpresaOwnedBy(other));
      assert Seqs.Filter([Inserted(e, newId)], EmpresaOwnedBy(other)) == [];
    }
  }

  /** Saving the user's own profile keeps one row per user: with no row or with one row before,
      there is exactly one row after, it holds the profile, a user with a row never gets a
      second one, and no other user's rows change. */
  lemma SaveEmpresaKeepsOneRow(rows: seq<EmpresaInfo>, userId: string, e: EmpresaInfo, newId: string)
    requires e.user_id == userId
    requires |UserEmpresas(rows, userId)| <= 1
    ensures var r := SaveEmpresa(rows, userId, e, newId);
            |UserEmpresas(r, userId)| == 1 &&
            SingleEmpresa(r, userId).Some? &&
            SingleEmpresa(r, userId).value == Inserted(e, newId).(id := SingleEmpresa(r, userId).value.id) &&
            (forall other :: other != userId ==> UserEmpresas(r, other) == UserEmpresas(rows, other)) &&
            (|UserEmpresas(rows, userId)| == 1 ==> |r| == |rows|)
  {
    var r := SaveEmpresa(rows, userId, e, newId);
    var f := UpdateWhereUser(userId, e);
    if SingleEmpresa(rows, userId).Some? {
      Seqs.FilterMapCommute(rows, f, EmpresaOwnedBy(userId));
      var mine := UserEmpresas(rows, userId);
      assert UserEmpresas(r, userId) == Seqs.Map(mine, f);
      assert mine[0] in mine;
    } else {
      Seqs.FilterAppend(rows, [Inserted(e, newId)], EmpresaOwnedBy(userId));
      assert Seqs.Filter([Inserted(e, newId)], EmpresaOwnedBy(userId)) == [Inserted(e, newId)];
    }
    forall other | other != userId ensures UserEmpresas(r, other) == UserEmpresas(rows, other) {
      SaveEmpresaKeepsOthers(rows, userId, e, newId, other);
    }
  }

  // ---------------------------------------------------------------------------------------------
  // The component

  const CnpjInvalido := "CNPJ inválido"
  const CnpjNaoEncontrado := "CNPJ não encontrado"
  const CnpjErro := "Erro ao buscar CNPJ"
  const CnpjCarregado := "Dados carregados com sucesso!"

  class EmpresaScreen {
    const db: Db
    const userId: string
    var empresa: EmpresaInfo
    var loading: bool
    var loadingCNPJ: bool

    /** The profile on screen always belongs to the signed-in user. */
    ghost predicate Valid()
      reads this
    {
      empresa.user_id == userId
    }

    constructor (db: Db, userId: string)
      ensures this.db == db && this.userId == userId
      ensures empresa == DefaultEmpresa(userId) && !loading && !loadingCNPJ
      ensures Valid()
    {
      this.db := db;
      this.userId := userId;
      empresa := DefaultEmpresa(userId);
      loading, loadingCNPJ := false, false;
    }

    /** `loadEmpresa`: the user's row when the single-row query finds exactly one; otherwise the
        form is kept. */
    method LoadEmpresa()
      requires Valid()
      modifies this`empresa
      ensures SingleEmpresa(db.empresas, userId).Some? ==> empresa == SingleEmpresa(db.empresas, userId).value
      ensures SingleEmpresa(db.empresas, userId).None? ==> empresa == old(empresa)
      ensures Valid()
    {
      var data := SingleEmpresa(db.empresas, userId);
      if data.Some? {
        empresa := data.value;
      }
    }

    /** `buscarCNPJ`: a short text is refused before any request (`query` is none and nothing
        changes); otherwise the digits are sent, the answer `lookup(digits)` is merged when found,
        and the flag ends lowered whatever the answer. */
    method BuscarCnpj(lookup: string -> Registry) returns (query: Option<string>, msg: string)
      requires Valid()
      modifies this`empresa, this`loadingCNPJ
      ensures query == CnpjQuery(old(empresa.cnpj))
      ensures query.None? ==> msg == CnpjInvalido && empresa == old(empresa) && loadingCNPJ == old(loadingCNPJ)
      ensures query.Some? ==> !loadingCNPJ
      ensures query.Some? && !lookup(query.value).Found? ==> empresa == old(empresa)
      ensures query.Some? && lookup(query.value).Unreachable? ==> msg == CnpjErro
      ensures query.Some? && lookup(query.value).NotFound? ==> msg == CnpjNaoEncontrado
      ensures query.Some? && lookup(query.value).Found? ==>
                empresa == MergeRegistry(old(empresa), lookup(query.value)) && msg == CnpjCarregado
      ensures Valid()
    {
      query := CnpjQuery(empresa.cnpj);
      if query.None? {
        return query, CnpjInvalido;
      }
      loadingCNPJ := true;
      var answer := lookup(query.value);
      match answer {
        case Unreachable =>
          msg := CnpjErro;
        case NotFound =>
          msg := CnpjNaoEncontrado;
        case Found(_, _, _, _, _, _, _, _) =>
          empresa := MergeRegistry(empresa, answer);
          msg := CnpjCarregado;
      }
      loadingCNPJ := false;
    }

    /** `handleSave`: update when the user's row exists, insert otherwise; the flag ends
        lowered. */
    method HandleSave(newId: string)
      requires Valid()
      modifies this`loading, db`empresas
      ensures db.empresas == SaveEmpresa(old(db.empresas), userId, empresa, newId)
      ensures |UserEmpresas(old(db.empresas), userId)| <= 1 ==> |UserEmpresas(db.empresas, userId)| == 1
      ensures !loading
    {
      loading := true;
      if |UserEmpresas(db.empresas, userId)| <= 1 {
        SaveEmpresaKeepsOneRow(db.empresas, userId, empresa, newId);
      }
      db.empresas := SaveEmpresa(db.empresas, userId, empresa, newId);
      loading := false;
    }

    /** `handleLogoUpload`: the picked file's data URL becomes the logo; no file, no change. */
    method HandleLogoUpload(dataUrl: Option<string>)
      requires Valid()
      modifies this`empresa
      ensures dataUrl.Some? ==> empresa == old(empresa).(logo := dataUrl)
      ensures dataUrl.None? ==> empresa == old(empresa)
      ensures Valid()
    {
      if dataUrl.Some? {
        empresa := empresa.(logo := dataUrl);
      }
    }
  }
}
