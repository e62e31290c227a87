/** The mapping from domain cards to the response shape returned to the caller. */
module CartaoFactory {

  import opened Dominio

  /** The response view of a card: the same four fields. */
  datatype CartaoResponse = CartaoResponse(
    tipoCartao: TipoCartao,
    valorAnuidadeMensal: Money,
    valorLimiteDisponivel: Money,
    status: CartaoStatus)

  /** toCartaoResponse: type, monthly fee, limit and status copied unchanged. */
  function ToCartaoResponse(cartao: Cartao): (r: CartaoResponse)
    ensures r.tipoCartao == cartao.tipoCartao
    ensures r.valorAnuidadeMensal == cartao.valorAnuidadeMensal
    ensures r.valorLimiteDisponivel == cartao.valorLimiteDisponivel
    ensures r.status == cartao.status
  {
    CartaoResponse(cartao.tipoCartao, cartao.valorAnuidadeMensal, cartao.valorLimiteDisponivel, cartao.status)
  }

  /** toCartaoResponseList: the element-wise map, in order. */
  function ToCartaoResponseList(cartoes: seq<Cartao>): (r: seq<CartaoResponse>)
    ensures |r| == |cartoes|
    ensures forall i :: 0 <= i < |cartoes| ==> r[i] == ToCartaoResponse(cartoes[i])
  {
    seq(|cartoes|, i requires 0 <= i < |cartoes| => ToCartaoResponse(cartoes[i]))
  }

  /** The reverse view: a response carries enough to rebuild the card. */
  function ToCartao(resposta: CartaoResponse): Cartao
  {
    Cartao(resposta.tipoCartao, resposta.valorAnuidadeMensal, resposta.valorLimiteDisponivel, resposta.status)
  }

  /** No information is lost: mapping a card and back gives the same card, so distinct cards stay distinct. */
  lemma ToCartaoResponseInversivel(a: Cartao, b: Cartao)
    ensures ToCartao(ToCartaoResponse(a)) == a
    ensures ToCartaoResponse(a) == ToCartaoResponse(b) ==> a == b
  {
  }

  /** The empty list maps to the empty list, and the map distributes over concatenation. */
  lemma ToCartaoResponseListConcatena(xs: seq<Cartao>, ys: seq<Cartao>)
    ensures ToCartaoResponseList([]) == []
    ensures ToCartaoResponseList(xs + ys) == ToCartaoResponseList(xs) + ToCartaoResponseList(ys)
  {
    var l := ToCartaoResponseList(xs + ys);
    var r := ToCartaoResponseList(xs) + ToCartaoResponseList(ys);
    assert |l| == |r|;
    forall i | 0 <= i < |l| ensures l[i] == r[i] {
      if i < |xs| {
        assert (xs + ys)[i] == xs[i];
      } else {
        assert (xs + ys)[i] == ys[i - |xs|];
      }
    }
  }

  /** The list map loses nothing either: mapping back element-wise restores the card list. */
  lemma ToCartaoResponseListInversivel(cartoes: seq<Cartao>)
    ensures var r := ToCartaoResponseList(cartoes);
            seq(|r|, i requires 0 <= i < |r| => ToCartao(r[i])) == cartoes
  {
  }
}
