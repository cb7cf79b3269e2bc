/**
 * Collection helpers shared by the registry and the order code: the smallest
 * element of a finite set of ids (the model's deterministic stand-in for a
 * scan over a hash map), `Map.getOrDefault(k, new ArrayList<>())` for the
 * id lists, and the `"{[a, b, c]}"` rendering that the listing operations
 * build with a StringBuilder loop.
 */
module Colecoes {
  import opened Erros

  /** Every finite non-empty set of integers has a least element. */
  lemma {:induction false} MenorExiste(s: set<int>)
    requires s != {}
    ensures exists m :: m in s && forall x :: x in s ==> m <= x
    decreases |s|
  {
    if forall y :: y !in s {
      assert false;
    }
    var y :| y in s;
    if s != {y} {
      var resto := s - {y};
      MenorExiste(resto);
      var m :| m in resto && forall x :: x in resto ==> m <= x;
      var menor := if y < m then y else m;
      forall x | x in s ensures menor <= x {
        if x != y {
          assert x in resto;
        }
      }
    }
  }

  /** The least element of a non-empty set. */
  function Menor(s: set<int>): (m: int)
    requires s != {}
    ensures m in s
    ensures forall x :: x in s ==> m <= x
  {
    MenorExiste(s);
    var m :| m in s && forall x :: x in s ==> m <= x;
    m
  }

  /** `list.stream().min(...)` over a set of ids: None for the empty set. */
  function MenorOpcional(s: set<int>): (r: Option<int>)
    ensures r.None? <==> s == {}
    ensures r.Some? ==> r.value in s && forall x :: x in s ==> r.value <= x
  {
    if s == {} then None else Some(Menor(s))
  }

  /** `m.getOrDefault(k, new ArrayList<>())` for the id lists kept per owner, company or courier. */
  function Lista(m: map<int, seq<int>>, k: int): (r: seq<int>)
    ensures k in m ==> r == m[k]
    ensures k !in m ==> r == []
  {
    if k in m then m[k] else []
  }

  /** The parts separated by ", ", as the listing loops append them. */
  function Juntar(partes: seq<string>): string
  {
    if |partes| == 0 then ""
    else if |partes| == 1 then partes[0]
    else Juntar(partes[..|partes| - 1]) + ", " + partes[|partes| - 1]
  }

  function SomaTamanhos(partes: seq<string>): nat
  {
    if partes == [] then 0 else SomaTamanhos(partes[..|partes| - 1]) + |partes[|partes| - 1]|
  }

  /** The joined text holds every part plus one two-character separator between neighbours. */
  lemma {:induction false} JuntarTamanho(partes: seq<string>)
    requires partes != []
    ensures |Juntar(partes)| == SomaTamanhos(partes) + 2 * (|partes| - 1)
  {
    if |partes| > 1 {
      var ini := partes[..|partes| - 1];
      JuntarTamanho(ini);
      if |ini| == 1 {
        assert SomaTamanhos(ini) == |ini[0]| by {
          assert ini[..0] == [];
        }
      }
    }
  }

  /** Each part appears in the joined text right after the parts before it and their separators. */
  lemma {:induction false} JuntarPrefixo(partes: seq<string>, k: nat)
    requires 0 < k <= |partes|
    ensures Juntar(partes[..k]) <= Juntar(partes)
    decreases |partes|
  {
    if k < |partes| {
      var ini := partes[..|partes| - 1];
      assert ini[..k] == partes[..k];
      JuntarPrefixo(ini, k);
      assert partes[..|partes|] == partes;
    } else {
      assert partes[..k] == partes;
    }
  }

  /**
   * The StringBuilder loop of the listing operations: `"{[]}"` for an empty
   * list, otherwise `"{["`, the parts separated by `", "`, and `"]}"`.
   */
  method Serializar(partes: seq<string>) returns (s: string)
    ensures s == "{[" + Juntar(partes) + "]}"
    ensures partes == [] ==> s == "{[]}"
  {
    if |partes| == 0 {
      return "{[]}";
    }
    var resultado := "{[";
    var i := 0;
    while i < |partes|
      invariant 0 <= i <= |partes|
      invariant resultado == "{[" + Juntar(partes[..i])
    {
      if i > 0 {
        resultado := resultado + ", ";
      }
      resultado := resultado + partes[i];
      assert partes[..i + 1][..i] == partes[..i];
      i := i + 1;
    }
    assert partes[..i] == partes;
    s := resultado + "]}";
  }
}
