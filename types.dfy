/** The records of src/lib/types.ts. Optional TypeScript fields (`id?`, `created_at?`) and
    nullable ones (`string | null`) are `Option`s; `number` prices and totals are `real`. */
module Types {
  import opened Wrappers
  import Seqs

  datatype User = User(id: string, email: string, plano_pro: bool)

  datatype EmpresaInfo = EmpresaInfo(
    id: Option<string>,
    user_id: string,
    nome: string,
    logo: Option<string>,
    telefone: string,
    whatsapp: string,
    cnpj: string,
    endereco: string,
    responsavel: string,
    email: string)

  datatype Cliente = Cliente(
    id: Option<string>,
    user_id: string,
    nome: string,
    telefone: string,
    cnpj: string,
    endereco: string,
    created_at: Option<string>)

  datatype Categoria = Produto | Servico

  datatype Item = Item(
    id: Option<string>,
    user_id: string,
    nome: string,
    descricao: string,
    categoria: Categoria,
    preco: real,
    unidade: string,
    foto: Option<string>,
    created_at: Option<string>)

  /** A quote line: a snapshot of a catalog item with a quantity and its subtotal. */
  datatype OrcamentoItem = OrcamentoItem(
    item_id: string,
    nome: string,
    descricao: string,
    quantidade: int,
    preco: real,
    subtotal: real)

  datatype Status = Pendente | Aprovado | Rejeitado

  /** The text stored in the `status` column. */
  function StatusName(s: Status): string
  {
    match s
    case Pendente => "pendente"
    case Aprovado => "aprovado"
    case Rejeitado => "rejeitado"
  }

  datatype Orcamento = Orcamento(
    id: Option<string>,
    user_id: string,
    cliente_id: string,
    cliente_nome: Option<string>,
    itens: seq<OrcamentoItem>,
    total: real,
    status: Status,
    observacoes: string,
    assinatura: Option<string>,
    created_at: Option<string>)

  /** The id matchers the screens pass to `find`/`filter` (`x => x.id === id`). An absent id never
      equals a string. */
  function ItemIdIs(id: string): Item -> bool
  {
    (i: Item) => i.id == Some(id)
  }

  function ClienteIdIs(id: string): Cliente -> bool
  {
    (c: Cliente) => c.id == Some(id)
  }

  /** `clientes.find(c => c.id === id)`, shared by the composer and the ledger. */
  function FindCliente(clientes: seq<Cliente>, id: string): (r: Option<Cliente>)
    ensures r.None? <==> forall k :: 0 <= k < |clientes| ==> clientes[k].id != Some(id)
    ensures r.Some? ==> r.value in clientes && r.value.id == Some(id)
  {
    Seqs.Find(clientes, ClienteIdIs(id))
  }
}
