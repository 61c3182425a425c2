/** The CPU's address translation, against Kernel Memory's own. */
module Mmu {
  import opened Basics
  import opened Intervals
  import opened Sticks
  import opened Contexto
  import opened KmEstado
  import opened KmOperaciones

  datatype Traduccion = Traduccion(id: U32, desplazamiento: U32, stick: U32, fisica: U32, limite: U32)

  datatype ResultadoMmu = MmuOk(traduccion: Traduccion) | SegmentoNoEncontrado | SegmentationFault | MmuError

  /** What a translation with a given maximum segment size must be. */
  function Traducir(segs: seq<Segmento>, segMax: U32, dir: U32, n: U32): ResultadoMmu {
    if n == 0 || segMax == 0 || dir / segMax > U32_MAX || dir % segMax > U32_MAX then MmuError
    else TraducirDesde(segs, dir / segMax, dir % segMax, n)
  }

  function TraducirDesde(segs: seq<Segmento>, num: U32, desp: U32, n: U32): ResultadoMmu {
    match BuscarSegmento(segs, num)
    case None => SegmentoNoEncontrado
    case Some(i) =>
      if desp > U32_MAX - n || desp + n > segs[i].limite then SegmentationFault
      else if segs[i].base > U32_MAX - desp then MmuError
      else MmuOk(Traduccion(num, desp, segs[i].stick, segs[i].base + desp, segs[i].limite))
  }

  lemma Cociente(dir: U32, segMax: U32)
    requires segMax > 0
    ensures 0 <= dir / segMax <= dir && 0 <= dir % segMax <= dir && dir % segMax < segMax
    ensures dir == dir / segMax * segMax + dir % segMax
  {
    DivMod(dir, segMax);
    MulMayor(dir / segMax, segMax);
  }

  lemma DivMod(x: nat, m: nat)
    requires m > 0
    ensures x == x / m * m + x % m && 0 <= x % m < m && 0 <= x / m
  {
  }

  lemma MulMayor(q: nat, m: nat)
    requires m > 0
    ensures q <= q * m
  {
    assert q * m == q * (m - 1) + q;
  }

  class Mmu {
    var segmentMaxSize: U32

    constructor ()
      ensures segmentMaxSize == 256
    {
      segmentMaxSize := 256;
    }

    method SetSegmentMaxSize(tamanio: U32)
      modifies this
      ensures segmentMaxSize == tamanio
    {
      segmentMaxSize := tamanio;
    }

    method BuscarSegmentoCpu(segs: seq<Segmento>, id: U32) returns (r: Option<Segmento>)
      ensures match BuscarSegmento(segs, id) case None => r == None case Some(i) => r == Some(segs[i])
    {
      var i := 0;
      while i < |segs|
        invariant 0 <= i <= |segs|
        invariant forall k :: 0 <= k < i ==> segs[k].id != id
      {
        if segs[i].id == id {
          return Some(segs[i]);
        }
        i := i + 1;
      }
      r := None;
    }

    /** Checks the whole access, guarding both sums against 32-bit overflow. */
    method TraducirDireccionLogica(segs: seq<Segmento>, dir: U32, n: U32) returns (r: ResultadoMmu)
      ensures r == Traducir(segs, segmentMaxSize, dir, n)
    {
      if n == 0 || segmentMaxSize == 0 {
        return MmuError;
      }
      Cociente(dir, segmentMaxSize);
      var id, desplazamiento := dir / segmentMaxSize, dir % segmentMaxSize;
      var segmento := BuscarSegmentoCpu(segs, id);
      if segmento.None? {
        return SegmentoNoEncontrado;
      }
      var g := segmento.value;
      if desplazamiento > U32_MAX - n || desplazamiento + n > g.limite {
        return SegmentationFault;
      }
      if g.base > U32_MAX - desplazamiento {
        return MmuError;
      }
      r := MmuOk(Traduccion(id, desplazamiento, g.stick, g.base + desplazamiento, g.limite));
    }
  }

  /**
   * With the same maximum segment size both translators decide alike on every input
   * and give the same address, though they guard against overflow differently. The only
   * way to tell them apart is the address UINT32_MAX, which Kernel Memory uses for a fault.
   */
  lemma Acuerdo(segs: seq<Segmento>, segMax: U32, dir: U32, n: U32)
    requires segMax > 0
    ensures TraducirDireccion(segs, segMax, dir, n) ==
            match Traducir(segs, segMax, dir, n) case MmuOk(t) => t.fisica case _ => U32_MAX
  {
    Cociente(dir, segMax);
  }

  /** An access within its segment's limit that would start at the very last address. */
  predicate EnElTope(segs: seq<Segmento>, segMax: U32, dir: U32, n: U32) {
    && segMax > 0 && n > 0 && dir / segMax <= U32_MAX
    && var i := BuscarSegmento(segs, dir / segMax);
    && i.Some?
    && dir % segMax + n <= segs[i.value].limite
    && segs[i.value].base + dir % segMax == U32_MAX
  }

  /** They disagree about success exactly for such an access ... */
  lemma Desacuerdo(segs: seq<Segmento>, segMax: U32, dir: U32, n: U32)
    requires segMax > 0
    ensures (Traducir(segs, segMax, dir, n).MmuOk? != (TraducirDireccion(segs, segMax, dir, n) != U32_MAX))
            <==> EnElTope(segs, segMax, dir, n)
  {
    Cociente(dir, segMax);
  }

  /** ... which does happen for a table nobody validated ... */
  lemma DesacuerdoPosible()
    ensures var segs := [Segmento(0, 0, U32_MAX, 1)];
            Traducir(segs, 256, 0, 1).MmuOk? && TraducirDireccion(segs, 256, 0, 1) == U32_MAX
  {
    var segs := [Segmento(0, 0, U32_MAX, 1)];
    assert BuscarSegmento(segs, 0) == Some(0);
  }

  /** ... but never for the tables of a valid state, so there the two always agree. */
  lemma AcuerdoValido(s: Km, k: nat, segMax: U32, dir: U32, n: U32)
    requires Inv(s) && k < |s.contextos| && segMax > 0
    ensures var segs := s.contextos[k].segmentos;
            var c := Traducir(segs, segMax, dir, n);
            && (c.MmuOk? <==> TraducirDireccion(segs, segMax, dir, n) != U32_MAX)
            && (c.MmuOk? ==> c.traduccion.fisica == TraducirDireccion(segs, segMax, dir, n) && c.traduccion.fisica + n <= |s.mem|)
  {
    var segs := s.contextos[k].segmentos;
    Cociente(dir, segMax);
    Acuerdo(segs, segMax, dir, n);
    if Traducir(segs, segMax, dir, n).MmuOk? {
      SegmentoEnMemoria(s, k, BuscarSegmento(segs, dir / segMax).value);
    }
  }

  lemma TraduceSegmento(s: Km, k: nat, segMax: U32, dir: U32, n: U32) returns (i: nat)
    requires Inv(s) && k < |s.contextos| && Traducir(s.contextos[k].segmentos, segMax, dir, n).MmuOk?
    ensures segMax > 0 && n > 0 && i < |s.contextos[k].segmentos| && BuscarSegmento(s.contextos[k].segmentos, dir / segMax) == Some(i)
    ensures var g := s.contextos[k].segmentos[i];
            && g.id == dir / segMax && dir % segMax + n <= g.limite && g.base + g.limite <= |s.mem|
            && Traducir(s.contextos[k].segmentos, segMax, dir, n).traduccion.fisica == g.base + dir % segMax
  {
    Cociente(dir, segMax);
    i := BuscarSegmento(s.contextos[k].segmentos, dir / segMax).value;
    SegmentoEnMemoria(s, k, i);
  }

  /**
   * Isolation: if two translated accesses, of the same process or of two, meet in a
   * physical byte, they are of the same process and name the same logical byte.
   */
  lemma Aislamiento(s: Km, segMax: U32, k: nat, dir: U32, n: U32, x: nat, l: nat, dir2: U32, m: U32, y: nat)
    requires Inv(s) && k < |s.contextos| && l < |s.contextos| && x < n && y < m
    requires var a := Traducir(s.contextos[k].segmentos, segMax, dir, n);
             var b := Traducir(s.contextos[l].segmentos, segMax, dir2, m);
             a.MmuOk? && b.MmuOk? && a.traduccion.fisica + x == b.traduccion.fisica + y
    ensures k == l && dir + x == dir2 + y
  {
    var i := TraduceSegmento(s, k, segMax, dir, n);
    var j := TraduceSegmento(s, l, segMax, dir2, m);
    if k != l || i != j {
      SegmentosDisjuntos(s, k, i, l, j);
    }
    Cociente(dir, segMax);
    Cociente(dir2, segMax);
  }

  /** No access of one process reaches any byte of another process' segment. */
  lemma NoAlcanzaAjeno(s: Km, segMax: U32, k: nat, dir: U32, n: U32, l: nat, j: nat, a: int)
    requires Inv(s) && k < |s.contextos| && l < |s.contextos| && k != l && j < |s.contextos[l].segmentos|
    requires var t := Traducir(s.contextos[k].segmentos, segMax, dir, n);
             t.MmuOk? && t.traduccion.fisica <= a < t.traduccion.fisica + n
    ensures !Holds(Span(s.contextos[l].segmentos[j]), a)
  {
    var i := TraduceSegmento(s, k, segMax, dir, n);
    SegmentosDisjuntos(s, k, i, l, j);
  }
}
