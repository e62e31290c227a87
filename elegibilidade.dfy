/**
 * The income gate shared by every rule's offer builder: for each product in a fixed
 * list, `if (renda.compareTo(rendaMinima) >= 0) cartoes.add(<approved card>)`.
 */
module Elegibilidade {

  import opened Dominio

  /** A product a rule may offer, together with its configuration. */
  datatype Oferta = Oferta(tipo: TipoCartao, produto: Produto)

  /** The products of `os` appear in strictly increasing Rank (hence each at most once). */
  predicate CatalogoOrdenado(os: seq<Oferta>)
  {
    forall i, j | 0 <= i < j < |os| :: Rank(os[i].tipo) < Rank(os[j].tipo)
  }

  /** The card types of `r` appear in strictly increasing Rank (hence each at most once). */
  predicate OrdemCrescente(r: seq<Cartao>)
  {
    forall i, j | 0 <= i < j < |r| :: Rank(r[i].tipoCartao) < Rank(r[j].tipoCartao)
  }

  /** Some card of `r` has type `t`. */
  predicate Oferece(r: seq<Cartao>, t: TipoCartao)
  {
    exists i | 0 <= i < |r| :: r[i].tipoCartao == t
  }

  /** Income `renda` passes the gate of the product in `o` (BigDecimal compareTo >= 0). */
  predicate Atende(o: Oferta, renda: Money)
  {
    renda >= o.produto.rendaMinima
  }

  /** The approved cards, in list order, of the products whose income gate `renda` passes. */
  function Aprovados(os: seq<Oferta>, renda: Money): (r: seq<Cartao>)
    ensures |r| <= |os|
  {
    if os == [] then []
    else (if Atende(os[0], renda) then [CartaoAprovado(os[0].tipo, os[0].produto)] else [])
         + Aprovados(os[1..], renda)
  }

  /** Every card of the result is the approved card of a listed product whose gate `renda` passes. */
  lemma {:induction false} AprovadosCorreto(os: seq<Oferta>, renda: Money, c: Cartao)
    requires c in Aprovados(os, renda)
    ensures exists k | 0 <= k < |os| :: Atende(os[k], renda) && c == CartaoAprovado(os[k].tipo, os[k].produto)
  {
    if !(Atende(os[0], renda) && c == CartaoAprovado(os[0].tipo, os[0].produto)) {
      AprovadosCorreto(os[1..], renda, c);
      var k :| 0 <= k < |os[1..]| && Atende(os[1..][k], renda) && c == CartaoAprovado(os[1..][k].tipo, os[1..][k].produto);
      assert os[1..][k] == os[k + 1];
    }
  }

  /** Every listed product whose gate `renda` passes yields its approved card. */
  lemma {:induction false} AprovadosCompleto(os: seq<Oferta>, renda: Money, k: nat)
    requires k < |os| && Atende(os[k], renda)
    ensures CartaoAprovado(os[k].tipo, os[k].produto) in Aprovados(os, renda)
  {
    if k > 0 {
      assert os[1..][k - 1] == os[k];
      AprovadosCompleto(os[1..], renda, k - 1);
    }
  }

  /** The gate keeps the list order of the products. */
  lemma {:induction false} AprovadosOrdem(os: seq<Oferta>, renda: Money)
    requires CatalogoOrdenado(os)
    ensures OrdemCrescente(Aprovados(os, renda))
  {
    if os != [] {
      var resto := Aprovados(os[1..], renda);
      assert CatalogoOrdenado(os[1..]) by {
        forall i, j | 0 <= i < j < |os[1..]| ensures Rank(os[1..][i].tipo) < Rank(os[1..][j].tipo) {
          assert os[1..][i] == os[i + 1] && os[1..][j] == os[j + 1];
        }
      }
      AprovadosOrdem(os[1..], renda);
      forall j | 0 <= j < |resto| ensures Rank(os[0].tipo) < Rank(resto[j].tipoCartao) {
        AprovadosCorreto(os[1..], renda, resto[j]);
        var k :| 0 <= k < |os[1..]| && Atende(os[1..][k], renda) && resto[j] == CartaoAprovado(os[1..][k].tipo, os[1..][k].produto);
        assert os[1..][k] == os[k + 1];
      }
    }
  }

  /** Type `t` is offered exactly when a listed product of type `t` passes its gate. */
  lemma AprovadosOferece(os: seq<Oferta>, renda: Money, t: TipoCartao)
    ensures Oferece(Aprovados(os, renda), t) <==> exists k | 0 <= k < |os| :: os[k].tipo == t && Atende(os[k], renda)
  {
    var r := Aprovados(os, renda);
    if Oferece(r, t) {
      var i :| 0 <= i < |r| && r[i].tipoCartao == t;
      AprovadosCorreto(os, renda, r[i]);
    }
    if exists k | 0 <= k < |os| :: os[k].tipo == t && Atende(os[k], renda) {
      var k :| 0 <= k < |os| && os[k].tipo == t && Atende(os[k], renda);
      AprovadosCompleto(os, renda, k);
      var i :| 0 <= i < |r| && r[i] == CartaoAprovado(os[k].tipo, os[k].produto);
      assert r[i].tipoCartao == t;
    }
  }

  /** The result is empty exactly when no listed product's gate passes. */
  lemma AprovadosVazio(os: seq<Oferta>, renda: Money)
    ensures Aprovados(os, renda) == [] <==> forall k | 0 <= k < |os| :: !Atende(os[k], renda)
  {
    var r := Aprovados(os, renda);
    if r != [] {
      AprovadosCorreto(os, renda, r[0]);
    }
    if exists k | 0 <= k < |os| :: Atende(os[k], renda) {
      var k :| 0 <= k < |os| && Atende(os[k], renda);
      AprovadosCompleto(os, renda, k);
    }
  }

  /** The gate of one product: its approved card when `renda` passes, nothing otherwise. */
  function Portao(o: Oferta, renda: Money): seq<Cartao>
  {
    if Atende(o, renda) then [CartaoAprovado(o.tipo, o.produto)] else []
  }

  /** The gate over a product list is the gates of its products, one after the other. */
  lemma {:induction false} AprovadosConcatenados(xs: seq<Oferta>, ys: seq<Oferta>, renda: Money)
    ensures Aprovados(xs + ys, renda) == Aprovados(xs, renda) + Aprovados(ys, renda)
  {
    if xs == [] {
      assert xs + ys == ys;
    } else {
      var h := Portao(xs[0], renda);
      assert (xs + ys)[0] == xs[0];
      assert (xs + ys)[1..] == xs[1..] + ys;
      AprovadosConcatenados(xs[1..], ys, renda);
      assert Aprovados(xs + ys, renda) == h + (Aprovados(xs[1..], renda) + Aprovados(ys, renda));
      assert Aprovados(xs, renda) == h + Aprovados(xs[1..], renda);
    }
  }

  lemma AprovadosUnitarios(a: Oferta, b: Oferta, c: Oferta, renda: Money)
    ensures Aprovados([a], renda) == Portao(a, renda)
    ensures Aprovados([a, b], renda) == Portao(a, renda) + Portao(b, renda)
    ensures Aprovados([a, b, c], renda) == Portao(a, renda) + Portao(b, renda) + Portao(c, renda)
  {
    assert [a, b] == [a] + [b];
    AprovadosConcatenados([a], [b], renda);
    assert [a, b, c] == [a, b] + [c];
    AprovadosConcatenados([a, b], [c], renda);
  }
}
