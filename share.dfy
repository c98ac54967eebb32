/** The WhatsApp share link built by the quote composer and by the quote ledger: a greeting with
    the client's name and the quote total, sent to `https://wa.me/55<digits>?text=<message>`.
    `toFixed(2)` and `encodeURIComponent` are not modelled; they are passed in as functions. */
module Share {
  import opened Text

  const WaPrefix := "https://wa.me/55"
  const QueryText := "?text="

  /** The composer's middle sentence. */
  const CorpoNovo := "Segue o orçamento solicitado."
  /** The ledger's middle sentence. */
  const CorpoSalvo := "Segue o orçamento."

  /** `Olá ${nome}! ${corpo}\n\nTotal: R$ ${totalText}`. */
  function Mensagem(nome: string, corpo: string, totalText: string): (r: string)
    ensures Contains(r, nome) && Contains(r, totalText)
  {
    var head := "Olá ";
    var tail := "! " + corpo + "\n\nTotal: R$ ";
    ContainsMiddle(head, nome, tail + totalText);
    assert head + nome + (tail + totalText) == head + nome + tail + totalText;
    ContainsMiddle(head + nome + tail, totalText, "");
    assert head + nome + tail + totalText + "" == head + nome + tail + totalText;
    head + nome + tail + totalText
  }

  /** `https://wa.me/55${telefone.replace(/\D/g, '')}?text=${encode(mensagem)}`. */
  function WhatsAppUrl(telefone: string, mensagem: string, encode: string -> string): (r: string)
    ensures |r| >= |WaPrefix| && r[..|WaPrefix|] == WaPrefix
    ensures LeadingDigits(r[|WaPrefix|..]) == OnlyDigits(telefone)
    ensures |r| == |WaPrefix| + |OnlyDigits(telefone)| + |QueryText + encode(mensagem)|
    ensures r[|WaPrefix| + |OnlyDigits(telefone)|..] == QueryText + encode(mensagem)
  {
    var digits := OnlyDigits(telefone);
    var rest := QueryText + encode(mensagem);
    LeadingDigitsStop(digits, rest);
    assert (WaPrefix + digits + rest)[|WaPrefix|..] == digits + rest;
    WaPrefix + digits + rest
  }

  /** The link carries the encoded message, so the greeting with the client's name and the total
      reach the chat whenever the encoding keeps them. */
  lemma WhatsAppUrlCarriesMessage(telefone: string, mensagem: string, encode: string -> string)
    ensures Contains(WhatsAppUrl(telefone, mensagem, encode), encode(mensagem))
  {
    var r := WhatsAppUrl(telefone, mensagem, encode);
    var i := |WaPrefix| + |OnlyDigits(telefone)| + |QueryText|;
    assert r[i..i + |encode(mensagem)|] == encode(mensagem) by {
      assert r[i - |QueryText|..] == QueryText + encode(mensagem);
    }
    assert OccursAt(r, encode(mensagem), i);
  }

  /** The longest prefix of `s` made of digits: what a reader of the link takes as the number. */
  function LeadingDigits(s: string): (r: string)
    ensures |r| <= |s| && r == s[..|r|]
    ensures forall k :: 0 <= k < |r| ==> IsDigit(r[k])
  {
    if s == [] || !IsDigit(s[0]) then [] else [s[0]] + LeadingDigits(s[1..])
  }

  /** A digit string followed by a text starting with a non-digit is read back exactly. */
  lemma {:induction false} LeadingDigitsStop(digits: string, rest: string)
    requires forall k :: 0 <= k < |digits| ==> IsDigit(digits[k])
    requires rest != [] && !IsDigit(rest[0])
    ensures LeadingDigits(digits + rest) == digits
  {
    if digits != [] {
      assert (digits + rest)[1..] == digits[1..] + rest;
      LeadingDigitsStop(digits[1..], rest);
    } else {
      assert digits + rest == rest;
    }
  }
}
