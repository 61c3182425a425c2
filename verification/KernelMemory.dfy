/** Kernel Memory itself: lists and arrays changed in place, every operation proved against its step. */
module KernelMemory {
  import opened Basics
  import opened Intervals
  import opened Sticks
  import opened Contexto
  import opened KmEstado
  import opened KmAsignacion
  import opened KmCompactacion
  import opened KmSwap
  import opened KmReanudar
  import opened KmOperaciones
  import opened KmCorridas
  import opened KmRespuestas
  import opened SwapDevice
  import opened PhysicalMemory

  class KernelMemory {
    const cfg: Config
    const fisica: PhysicalMemory
    var contextos: seq<Contexto>
    var huecos: seq<Interval>
    var metas: seq<SwapMeta>
    var bitmap: array<bool>
    var disp: SwapDevice
    var blockSize: U32
    var swapActivo: bool
    var pendiente: Option<Pedido>

    ghost function Repr(): set<object>
      reads this, fisica
    {
      {this, fisica, bitmap, disp} + fisica.Repr
    }

    /** The parts are separate objects and the physical memory mirrors its sticks. */
    ghost predicate Forma()
      reads this, fisica, fisica.Repr
    {
      && fisica.Valid() && cfg.segMax <= I32_MAX
      && this !in fisica.Repr && bitmap !in fisica.Repr && disp !in fisica.Repr
    }

    ghost function Estado(): Km
      reads this, fisica, bitmap, disp
    {
      Km(fisica.sticks, fisica.flat, contextos, huecos, metas, bitmap[..], disp.disco, blockSize, swapActivo, pendiente)
    }

    ghost predicate Valid()
      reads this, fisica, fisica.Repr, bitmap, disp
    {
      Forma() && Inv(Estado())
    }

    constructor (cfg: Config)
      requires cfg.segMax <= I32_MAX
      ensures Valid() && Estado() == INICIAL && this.cfg == cfg && fresh(Repr())
    {
      this.cfg := cfg;
      fisica := new PhysicalMemory();
      contextos, huecos, metas, blockSize, swapActivo, pendiente := [], [], [], 0, false, None;
      bitmap := new bool[0];
      disp := new SwapDevice([], []);
      new;
      assert bitmap[..] == [];
      InicialInv();
    }

    // -------------------------------------------------------------- holes

    method AgregarHueco(base: U32, tamanio: U32)
      modifies this`huecos
      ensures huecos == old(huecos) + [Interval(base, tamanio)]
    {
      huecos := huecos + [Interval(base, tamanio)];
    }

    /** Some pair of adjacent holes, in scan order, or none. */
    method BuscarAdyacentes() returns (hay: bool, i: nat, j: nat)
      ensures hay ==> i < |huecos| && j < |huecos| && i != j && Adjacent(huecos[i], huecos[j])
      ensures !hay ==> Coalesced(huecos)
    {
      i := 0;
      while i < |huecos|
        invariant 0 <= i <= |huecos|
        invariant forall x, y :: 0 <= x < i && 0 <= y < |huecos| && x != y ==> !Adjacent(huecos[x], huecos[y])
      {
        j := 0;
        while j < |huecos|
          invariant 0 <= j <= |huecos|
          invariant forall y :: 0 <= y < j && y != i ==> !Adjacent(huecos[i], huecos[y])
        {
          if i != j && huecos[i].base + huecos[i].size == huecos[j].base {
            return true, i, j;
          }
          j := j + 1;
        }
        i := i + 1;
      }
      return false, 0, 0;
    }

    /** Merges adjacent holes until none are left: the same addresses, fewest ranges. */
    method FusionarHuecos()
      requires NonEmpty(huecos) && Bounded(huecos, U32_MAX)
      modifies this`huecos
      ensures NonEmpty(huecos) && Bounded(huecos, U32_MAX) && Coalesced(huecos) && SameCover(huecos, old(huecos))
    {
      var cambio := true;
      while cambio
        invariant NonEmpty(huecos) && Bounded(huecos, U32_MAX) && SameCover(huecos, old(huecos))
        invariant !cambio ==> Coalesced(huecos)
        decreases |huecos|, cambio
      {
        var hay, i, j := BuscarAdyacentes();
        cambio := hay;
        if hay {
          forall a
            ensures Cover(RemoveAt(huecos[i := Interval(huecos[i].base, huecos[i].size + huecos[j].size)], j), a) == Cover(huecos, a)
          {
            MergeKeepsCover(huecos, i, j, a);
          }
          Unir(i, j);
        }
      }
    }

    method Unir(i: nat, j: nat)
      requires i < |huecos| && j < |huecos| && i != j && Adjacent(huecos[i], huecos[j])
      requires NonEmpty(huecos) && Bounded(huecos, U32_MAX)
      modifies this`huecos
      ensures huecos == RemoveAt(old(huecos)[i := Interval(old(huecos[i].base), old(huecos[i].size + huecos[j].size))], j)
      ensures NonEmpty(huecos) && Bounded(huecos, U32_MAX)
    {
      huecos := RemoveAt(huecos[i := Interval(huecos[i].base, huecos[i].size + huecos[j].size)], j);
    }

    method BestFit(tamanio: U32) returns (r: Option<nat>)
      ensures r.Some? ==> EsMejor(huecos, tamanio, r.value)
      ensures r.None? ==> !HayHueco(huecos, tamanio)
    {
      r := None;
      var i := 0;
      while i < |huecos|
        invariant 0 <= i <= |huecos|
        invariant r.Some? ==> r.value < i && EsMejor(huecos[..i], tamanio, r.value)
        invariant r.None? ==> !HayHueco(huecos[..i], tamanio)
      {
        if huecos[i].size >= tamanio {
          if r.None? || huecos[i].size < huecos[r.value].size {
            r := Some(i);
          }
        }
        i := i + 1;
      }
      assert huecos[..i] == huecos;
    }

    method WorstFit(tamanio: U32) returns (r: Option<nat>)
      ensures r.Some? ==> EsPeor(huecos, tamanio, r.value)
      ensures r.None? ==> !HayHueco(huecos, tamanio)
    {
      r := None;
      var i := 0;
      while i < |huecos|
        invariant 0 <= i <= |huecos|
        invariant r.Some? ==> r.value < i && EsPeor(huecos[..i], tamanio, r.value)
        invariant r.None? ==> !HayHueco(huecos[..i], tamanio)
      {
        if huecos[i].size >= tamanio {
          if r.None? || huecos[i].size > huecos[r.value].size {
            r := Some(i);
          }
        }
        i := i + 1;
      }
      assert huecos[..i] == huecos;
    }

    method SeleccionarHueco(tamanio: U32) returns (r: Option<nat>)
      ensures r.Some? ==> Elegido(cfg.peor, huecos, tamanio, r.value)
      ensures r.Some? ==> if cfg.peor then EsPeor(huecos, tamanio, r.value) else EsMejor(huecos, tamanio, r.value)
      ensures r.None? ==> !HayHueco(huecos, tamanio)
    {
      if cfg.peor {
        r := WorstFit(tamanio);
      } else {
        r := BestFit(tamanio);
      }
    }

    /** The first `tamanio` bytes of the hole are taken; a hole used up leaves the list. */
    method OcuparHueco(i: nat, tamanio: U32)
      requires Cabe(huecos, i, tamanio)
      modifies this`huecos
      ensures huecos == Tomar(old(huecos), i, tamanio)
    {
      if huecos[i].size == tamanio {
        huecos := RemoveAt(huecos, i);
      } else {
        huecos := huecos[i := Interval(huecos[i].base + tamanio, huecos[i].size - tamanio)];
      }
    }

    method LibreTotal() returns (total: U32)
      requires Sum(huecos) <= U32_MAX
      ensures total == Sum(huecos)
    {
      total := 0;
      var i := 0;
      while i < |huecos|
        invariant 0 <= i <= |huecos|
        invariant total + Sum(huecos[i..]) == Sum(huecos)
      {
        total := total + huecos[i].size;
        i := i + 1;
      }
    }

    // -------------------------------------------------------------- contexts

    method BuscarContexto(pid: U32) returns (r: Option<nat>)
      ensures r == Buscar(contextos, pid)
    {
      var i := 0;
      while i < |contextos|
        invariant 0 <= i <= |contextos|
        invariant forall k :: 0 <= k < i ==> contextos[k].pid != pid
      {
        if contextos[i].pid == pid {
          return Some(i);
        }
        i := i + 1;
      }
      r := None;
    }

    method BuscarEnTabla(segs: seq<Segmento>, id: U32) returns (r: Option<nat>)
      ensures r == BuscarSegmento(segs, id)
    {
      var i := 0;
      while i < |segs|
        invariant 0 <= i <= |segs|
        invariant forall k :: 0 <= k < i ==> segs[k].id != id
      {
        if segs[i].id == id {
          return Some(i);
        }
        i := i + 1;
      }
      r := None;
    }

    // -------------------------------------------------------------- segments

    /** Returns Ok, Compactar (free memory is enough but scattered) or Error. */
    method CrearSegmento(k: nat, id: U32, tamanio: U32) returns (r: Resultado)
      requires Valid() && k < |contextos|
      modifies this`huecos, this`contextos
      ensures Valid()
      ensures CrearStep(old(Estado()), Estado(), cfg.segMax, cfg.peor, old(contextos[k].pid), id, tamanio, r)
    {
      ghost var s := Estado();
      BuscarUnico(contextos, k);
      if cfg.segMax <= 0 || tamanio == 0 || tamanio > cfg.segMax {
        return Error;
      }
      var existente := BuscarEnTabla(contextos[k].segmentos, id);
      if existente.Some? {
        return Error;
      }
      var h := SeleccionarHueco(tamanio);
      if h.None? {
        r := SinHueco(tamanio);
      } else {
        HuecoTomable(s, h.value, tamanio);
        Asignar(k, h.value, id, tamanio);
        r := Ok;
      }
    }

    method SinHueco(tamanio: U32) returns (r: Resultado)
      requires Valid()
      ensures r == if Sum(huecos) >= tamanio then Resultado.Compactar else Error
    {
      BytesConservados(Estado());
      var libre := LibreTotal();
      r := if libre >= tamanio then Resultado.Compactar else Error;
    }

    /** Places a segment at the start of hole `i` and enters it in the process' table. */
    method Asignar(k: nat, i: nat, id: U32, tamanio: U32)
      requires Valid() && k < |contextos| && Tomable(Estado(), i, tamanio) && tamanio <= I32_MAX
      modifies this`huecos, this`contextos
      ensures Valid() && Estado() == ConSegmento(old(Estado()), k, i, id, tamanio)
    {
      ghost var s := Estado();
      ConSegmentoInv(s, k, i, id, tamanio);
      var base := huecos[i].base;
      var ms := fisica.MsParaDireccion(base);
      OcuparHueco(i, tamanio);
      var seg := Segmento(id, ms.value, base, tamanio);
      contextos := contextos[k := contextos[k].(segmentos := contextos[k].segmentos + [seg])];
    }

    /** Takes one entry out of a table by moving the following ones down. */
    method QuitarEntrada(segs: seq<Segmento>, i: nat) returns (r: seq<Segmento>)
      requires i < |segs|
      ensures r == RemoveAt(segs, i)
    {
      r := segs;
      var j := i;
      while j < |segs| - 1
        invariant i <= j < |segs| == |r|
        invariant r[..j] == segs[..i] + segs[i + 1..j + 1] && r[j + 1..] == segs[j + 1..]
      {
        ghost var antes := r;
        assert r[j + 1..][0] == segs[j + 1..][0];
        r := r[j := r[j + 1]];
        assert r[..j + 1] == antes[..j] + [segs[j + 1]];
        assert segs[i + 1..j + 2] == segs[i + 1..j + 1] + [segs[j + 1]];
        assert r[j + 2..] == antes[j + 1..][1..];
        j := j + 1;
      }
      r := r[..|segs| - 1];
    }

    method EliminarSegmento(k: nat, id: U32)
      requires Valid() && k < |contextos|
      modifies this`huecos, this`contextos
      ensures Valid() && EliminarStep(old(Estado()), Estado(), old(contextos[k].pid), id)
    {
      ghost var s := Estado();
      BuscarUnico(contextos, k);
      var encontrado := BuscarEnTabla(contextos[k].segmentos, id);
      if encontrado.Some? {
        var i := encontrado.value;
        LiberarRango(k, i);
        var resto := QuitarEntrada(contextos[k].segmentos, i);
        contextos := contextos[k := contextos[k].(segmentos := resto)];
        EliminadoInv(s, Estado(), k, i);
      }
    }

    /** The range of a segment joins the holes. */
    method LiberarRango(k: nat, i: nat)
      requires Valid() && k < |contextos| && i < |contextos[k].segmentos|
      modifies this`huecos
      ensures NonEmpty(huecos) && Coalesced(huecos) && SameCover(huecos, old(huecos) + [Span(contextos[k].segmentos[i])])
    {
      Devolver(Estado(), k, i);
      var g := contextos[k].segmentos[i];
      DevolverRango(g.base, g.limite);
    }

    method DevolverRango(base: U32, tamanio: U32)
      requires var h := huecos + [Interval(base, tamanio)]; NonEmpty(h) && Bounded(h, U32_MAX)
      modifies this`huecos
      ensures NonEmpty(huecos) && Coalesced(huecos) && SameCover(huecos, old(huecos) + [Interval(base, tamanio)])
    {
      AgregarHueco(base, tamanio);
      FusionarHuecos();
    }

    /** A segment's range may join the holes: not empty, and within the 32 bits. */
    static lemma Devolver(s: Km, k: nat, i: nat)
      requires Inv(s) && k < |s.contextos| && i < |s.contextos[k].segmentos|
      ensures var h := s.huecos + [Span(s.contextos[k].segmentos[i])]; NonEmpty(h) && Bounded(h, U32_MAX)
    {
      assert SegmentoOk(s.sticks, s.contextos[k].segmentos[i]);
      SegmentoEnMemoria(s, k, i);
      HuecosAcotados(s);
    }

    // -------------------------------------------------------------- compaction

    /** Copies one segment down to `cursor` and updates its entry. */
    method MoverSegmento(r: Ref, cursor: U32)
      requires Forma() && Movible(Estado(), r, cursor)
      modifies this`contextos, fisica.Repr
      ensures Forma() && fisica.Repr == old(fisica.Repr) && Estado() == Mover(old(Estado()), r, cursor)
    {
      hide Tiled, SwapOk, SegmentosOk, PidsDistintos, NonEmpty, Coalesced, Contiguous;
      var seg := contextos[r.c].segmentos[r.i];
      if seg.base != cursor {
        var datos := fisica.LeerFisico(seg.base, seg.limite);
        if datos.Some? {
          var ok := fisica.EscribirFisico(cursor, datos.value);
        }
        var ms := fisica.MsParaDireccion(cursor);
        var g := Segmento(seg.id, if ms.Some? then ms.value else seg.stick, cursor, seg.limite);
        contextos := contextos[r.c := contextos[r.c].(segmentos := contextos[r.c].segmentos[r.i := g])];
      }
    }

    /** The loop of compactar; `P` and `Q` stand for whatever one move keeps. */
    method Deslizar(ordenados: seq<Ref>, ghost P: (Km, seq<Ref>, int) -> bool, ghost Q: (Km, seq<Ref>, int) -> bool) returns (cursor: U32)
      requires Forma() && SeMantiene(P) && Habilita(P) && SeMantiene(Q)
      requires P(Estado(), ordenados, 0) && Q(Estado(), ordenados, 0)
      modifies this`contextos, fisica.Repr
      ensures Forma() && fisica.Repr == old(fisica.Repr) && Q(Estado(), [], cursor)
    {
      cursor := 0;
      var i := 0;
      while i < |ordenados|
        invariant 0 <= i <= |ordenados| && Forma() && fisica.Repr == old(fisica.Repr)
        invariant P(Estado(), ordenados[i..], cursor) && Q(Estado(), ordenados[i..], cursor)
      {
        assert ordenados[i..] == [ordenados[i]] + ordenados[i + 1..];
        cursor := DeslizarUno(ordenados[i], ordenados[i + 1..], cursor, P, Q);
        i := i + 1;
      }
      assert ordenados[i..] == [];
    }

    method DeslizarUno(r: Ref, ghost rest: seq<Ref>, cursor: U32, ghost P: (Km, seq<Ref>, int) -> bool, ghost Q: (Km, seq<Ref>, int) -> bool) returns (c: U32)
      requires Forma() && SeMantiene(P) && Habilita(P) && SeMantiene(Q)
      requires P(Estado(), [r] + rest, cursor) && Q(Estado(), [r] + rest, cursor)
      modifies this`contextos, fisica.Repr
      ensures Forma() && fisica.Repr == old(fisica.Repr) && P(Estado(), rest, c) && Q(Estado(), rest, c)
    {
      MoverSegmento(r, cursor);
      c := cursor + r.span.size;
    }

    /** Moves every segment down in ascending base order and leaves one hole at the end. */
    method Compactar()
      requires Valid()
      modifies this`contextos, this`huecos, fisica.Repr
      ensures Valid() && fisica.Repr == old(fisica.Repr) && Estado() == Compactado(old(Estado()))
    {
      ghost var s := Estado();
      CompactarPreserva(s);
      InicioDesde(s);
      InvariantePaso(s);
      InvarianteHabilita(s);
      RumboPaso(Deslizado(s), Usado(s));
      RumboInicial(s);
      var ordenados := RefsOrdenadas(contextos);
      var cursor := Deslizar(ordenados, Invariante(s), Rumbo(Deslizado(s), Usado(s)));
      RumboFinal(Deslizado(s), Usado(s), Estado(), cursor);
      DejarUnHueco(cursor);
    }

    method DejarUnHueco(cursor: U32)
      requires Forma()
      modifies this`huecos
      ensures Forma() && Estado() == old(Estado()).(huecos := HuecoFinal(cursor, |fisica.flat|))
    {
      huecos := [];
      var total := fisica.MemoriaTotal();
      if cursor < total {
        AgregarHueco(cursor, total - cursor);
      }
    }

    // -------------------------------------------------------------- swap blocks

    method SwapBloqueLibre() returns (r: Option<nat>)
      ensures r.Some? ==> r.value < bitmap.Length && !bitmap[r.value] && forall b :: 0 <= b < r.value ==> bitmap[b]
      ensures r.None? ==> forall b :: 0 <= b < bitmap.Length ==> bitmap[b]
    {
      var i := 0;
      while i < bitmap.Length
        invariant 0 <= i <= bitmap.Length
        invariant forall b :: 0 <= b < i ==> bitmap[b]
      {
        if !bitmap[i] {
          return Some(i);
        }
        i := i + 1;
      }
      r := None;
    }

    method ContarLibres() returns (n: nat)
      ensures n == Libres(bitmap[..])
    {
      n := 0;
      var b := 0;
      while b < bitmap.Length
        invariant 0 <= b <= bitmap.Length
        invariant n + Libres(bitmap[b..]) == Libres(bitmap[..])
      {
        assert bitmap[b..][1..] == bitmap[b + 1..];
        n := n + Bit(!bitmap[b]);
        b := b + 1;
      }
      assert bitmap[b..] == [];
    }

    /** Blocks the segments need; stops early when they exceed the whole device. */
    method ContarNecesarios(segs: seq<Segmento>) returns (n: nat)
      requires blockSize > 0
      ensures n == Necesarios(segs, blockSize) || (bitmap.Length < n <= Necesarios(segs, blockSize))
    {
      n := 0;
      var i := 0;
      while i < |segs|
        invariant 0 <= i <= |segs|
        invariant n + Necesarios(segs[i..], blockSize) == Necesarios(segs, blockSize)
      {
        assert segs[i..][1..] == segs[i + 1..];
        n := n + segs[i].limite / blockSize + Bit(segs[i].limite % blockSize != 0);
        if n > bitmap.Length {
          return;
        }
        i := i + 1;
      }
    }

    /** The blocks of the entries are free again. */
    method LiberarBloques(ms: seq<SwapMeta>)
      requires bitmap.Length <= U32_MAX
      modifies bitmap
      ensures Liberado(old(bitmap[..]), bitmap[..], ms)
    {
      var i := 0;
      while i < |ms|
        invariant 0 <= i <= |ms|
        invariant Liberado(old(bitmap[..]), bitmap[..], ms[..i])
      {
        ghost var antes := bitmap[..];
        LiberarEntrada(ms[i].bloques);
        LiberadoPaso(old(bitmap[..]), antes, bitmap[..], ms, i);
        i := i + 1;
      }
      assert ms[..i] == ms;
    }

    method LiberarEntrada(bloques: seq<U32>)
      modifies bitmap
      ensures LiberadaEntrada(old(bitmap[..]), bitmap[..], bloques)
    {
      var j := 0;
      while j < |bloques|
        invariant 0 <= j <= |bloques|
        invariant forall b :: 0 <= b < bitmap.Length ==> bitmap[b] == (old(bitmap[b]) && b !in bloques[..j])
      {
        if bloques[j] < bitmap.Length {
          bitmap[bloques[j]] := false;
        }
        j := j + 1;
      }
      assert bloques[..j] == bloques;
    }

    /** One free block after the other is taken. */
    method ReservarBloques(cant: nat) returns (bloques: seq<U32>)
      requires bitmap.Length <= U32_MAX && cant <= Libres(bitmap[..])
      modifies bitmap
      ensures |bloques| == cant && ReservadaEntrada(old(bitmap[..]), bitmap[..], bloques)
      ensures Libres(bitmap[..]) + cant == Libres(old(bitmap[..]))
    {
      bloques := [];
      while |bloques| < cant
        invariant |bloques| <= cant && ReservadaEntrada(old(bitmap[..]), bitmap[..], bloques)
        invariant Libres(bitmap[..]) + |bloques| == Libres(old(bitmap[..]))
      {
        var nb := SwapBloqueLibre();
        if nb.None? {
          LibresCero(bitmap[..]);
          assert false;
        }
        LibresUno(bitmap[..], nb.value);
        ReservadaEntradaPaso(old(bitmap[..]), bitmap[..], bloques, nb.value);
        ghost var antes := bitmap[..];
        bitmap[nb.value] := true;
        assert bitmap[..] == antes[nb.value := true];
        bloques := bloques + [nb.value];
      }
    }

    /** Metadata with reserved blocks for every segment of a table. */
    method ReservarMetas(pid: U32, segs: seq<Segmento>) returns (nuevas: seq<SwapMeta>)
      requires bitmap.Length <= U32_MAX && blockSize > 0 && Necesarios(segs, blockSize) <= Libres(bitmap[..])
      modifies bitmap
      ensures |nuevas| == |segs| && Reservado(old(bitmap[..]), bitmap[..], nuevas)
      ensures forall i :: 0 <= i < |nuevas| ==> EsMeta(blockSize, bitmap.Length, pid, segs[i], nuevas[i])
    {
      nuevas := [];
      while |nuevas| < |segs|
        invariant |nuevas| <= |segs| && Reservado(old(bitmap[..]), bitmap[..], nuevas)
        invariant Necesarios(segs[|nuevas|..], blockSize) <= Libres(bitmap[..])
        invariant forall i :: 0 <= i < |nuevas| ==> EsMeta(blockSize, bitmap.Length, pid, segs[i], nuevas[i])
      {
        var seg := segs[|nuevas|];
        assert segs[|nuevas|..][1..] == segs[|nuevas| + 1..];
        var cant := seg.limite / blockSize + Bit(seg.limite % blockSize != 0);
        ghost var antes := bitmap[..];
        var bloques := ReservarBloques(cant);
        var m := SwapMeta(pid, seg.id, seg.limite, bloques);
        ReservadoPaso(old(bitmap[..]), antes, bitmap[..], nuevas, m);
        nuevas := nuevas + [m];
      }
    }

    method SwapEscribirBloque(nro: U32, datos: seq<Byte>) returns (ok: bool)
      requires swapActivo && 0 < blockSize <= U32_MAX - 4 && |datos| == blockSize && nro < bitmap.Length == |disp.disco|
      modifies this`swapActivo, disp
      ensures ok ==> swapActivo && disp.averias == old(disp.averias) && disp.disco == old(disp.disco)[nro := datos]
      ensures !ok ==> disp.averias > old(disp.averias)
      ensures !ok ==> disp.disco == old(disp.disco) || disp.disco == old(disp.disco)[nro := datos]
    {
      if !swapActivo || bitmap.Length == 0 || blockSize == 0 || blockSize > U32_MAX - 4 || nro >= bitmap.Length {
        return false;
      }
      var resp := disp.Escribir(nro, datos);
      if resp.SinRespuesta? {
        swapActivo := false;
      }
      ok := resp == Atendido;
    }

    method SwapLeerBloque(nro: U32) returns (r: Option<seq<Byte>>)
      requires swapActivo && 0 < blockSize && nro < bitmap.Length == |disp.disco|
      modifies this`swapActivo, disp
      ensures disp.disco == old(disp.disco)
      ensures r.Some? ==> swapActivo && disp.averias == old(disp.averias) && r.value == disp.disco[nro]
      ensures r.None? ==> disp.averias > old(disp.averias)
    {
      if !swapActivo || bitmap.Length == 0 || blockSize == 0 || nro >= bitmap.Length {
        return None;
      }
      var resp, bloque := disp.Leer(nro);
      if resp.SinRespuesta? {
        swapActivo := false;
      }
      r := if resp == Atendido then Some(bloque) else None;
    }

    /** Copies the data block by block, the last one padded with zeros. */
    method CopiarBloques(datos: seq<Byte>, bloques: seq<U32>) returns (ok: bool)
      requires swapActivo && 0 < blockSize <= U32_MAX - 4 && bitmap.Length == |disp.disco| && DelTamanio(disp.disco, blockSize)
      requires 0 < |datos| && |bloques| == Bloques(|datos|, blockSize) && Distintos(bloques)
      requires forall j :: 0 <= j < |bloques| ==> bloques[j] < bitmap.Length
      modifies this`swapActivo, disp
      ensures SoloBloques(old(disp.disco), disp.disco, bloques) && DelTamanio(disp.disco, blockSize)
      ensures ok ==> swapActivo && disp.averias == old(disp.averias) && Escritos(disp.disco, bloques, datos, blockSize)
      ensures !ok ==> disp.averias > old(disp.averias)
    {
      var b := 0;
      while b < |bloques|
        invariant 0 <= b <= |bloques| && swapActivo && disp.averias == old(disp.averias)
        invariant SoloBloques(old(disp.disco), disp.disco, bloques) && DelTamanio(disp.disco, blockSize)
        invariant EscritosHasta(disp.disco, bloques, datos, blockSize, b)
      {
        OffsetEnRango(|datos|, blockSize, b);
        EscritosPaso(disp.disco, bloques, datos, blockSize, b);
        var escrito := SwapEscribirBloque(bloques[b], Trozo(datos, blockSize, b * blockSize));
        if !escrito {
          return false;
        }
        b := b + 1;
      }
      ok := true;
    }

    /** Copies every segment to the blocks reserved for it. */
    method CopiarSegmentos(ghost s: Km, k: nat, nuevas: seq<SwapMeta>, ghost b1: seq<bool>) returns (ok: bool)
      requires Forma() && Copiable(s, k, nuevas, b1) && k < |contextos|
      requires contextos == s.contextos && fisica.flat == s.mem && disp.disco == s.disco && bitmap.Length == |s.bitmap|
      requires blockSize == s.blockSize && swapActivo
      modifies this`swapActivo, disp
      ensures Forma() && DiscoOk(s, disp.disco)
      ensures ok ==> swapActivo && disp.averias == old(disp.averias) && CopiadosHasta(s, k, nuevas, disp.disco, |nuevas|)
      ensures !ok ==> disp.averias > old(disp.averias)
    {
      var i := 0;
      while i < |nuevas|
        invariant 0 <= i <= |nuevas| && Forma() && swapActivo && disp.averias == old(disp.averias)
        invariant DiscoOk(s, disp.disco) && CopiadosHasta(s, k, nuevas, disp.disco, i)
      {
        CopiablePaso(s, k, nuevas, b1, i);
        var seg := contextos[k].segmentos[i];
        var datos := fisica.LeerFisico(seg.base, seg.limite);
        ghost var antes := disp.disco;
        ok := CopiarBloques(datos.value, nuevas[i].bloques);
        MismosUsadosPaso(s.bitmap, s.disco, antes, disp.disco, nuevas[i].bloques);
        if !ok {
          return;
        }
        CopiadosPaso(s, k, nuevas, b1, antes, disp.disco, i);
        i := i + 1;
      }
      ok := true;
    }

    /** Commit: the ranges join the holes and the metadata the list, segment by segment. */
    method EntregarRangos(segs: seq<Segmento>, nuevas: seq<SwapMeta>)
      requires |nuevas| == |segs|
      modifies this`huecos, this`metas
      ensures huecos == old(huecos) + Spans(segs) && metas == old(metas) + nuevas
    {
      var i := 0;
      while i < |segs|
        invariant 0 <= i <= |segs|
        invariant huecos == old(huecos) + Spans(segs)[..i] && metas == old(metas) + nuevas[..i]
      {
        AgregarHueco(segs[i].base, segs[i].limite);
        metas := metas + [nuevas[i]];
        i := i + 1;
      }
      assert Spans(segs)[..i] == Spans(segs) && nuevas[..i] == nuevas;
    }

    /** Moves every segment of a process to swap, or nothing. */
    method SuspenderProceso(pid: U32) returns (ok: bool)
      requires Valid()
      modifies this, bitmap, disp
      ensures Valid() && bitmap == old(bitmap) && disp == old(disp)
      ensures SuspenderStep(old(Estado()), Estado(), pid, disp.averias > old(disp.averias), ok)
      ensures ok <==>
        Conoce(old(Estado()), pid) && old(swapActivo) && (SinSegmentos(old(Estado()), pid) || (EntraEnSwap(old(Estado()), pid) && !(disp.averias > old(disp.averias))))
    {
      ghost var s := Estado();
      ok := false;
      var ctx := BuscarContexto(pid);
      if ctx.Some? && swapActivo && bitmap.Length != 0 && blockSize != 0 {
        ok := LlevarSiHay(pid, ctx.value);
      }
      SuspenderResponde(s, Estado(), pid, disp.averias > old(disp.averias), ok);
    }

    /** A process with no segments is out of memory already. */
    method LlevarSiHay(pid: U32, k: nat) returns (ok: bool)
      requires Valid() && Buscar(contextos, pid) == Some(k) && swapActivo && bitmap.Length != 0 && blockSize != 0
      modifies this, bitmap, disp
      ensures Valid() && bitmap == old(bitmap) && disp == old(disp)
      ensures SuspenderStep(old(Estado()), Estado(), pid, disp.averias > old(disp.averias), ok)
    {
      if contextos[k].segmentos == [] {
        return true;
      }
      var alcanza := AlcanzanBloques(contextos[k].segmentos);
      if !alcanza {
        return false;
      }
      ok := MoverASwap(k);
    }

    method AlcanzanBloques(segs: seq<Segmento>) returns (alcanza: bool)
      requires blockSize > 0
      ensures alcanza <==> Necesarios(segs, blockSize) <= Libres(bitmap[..])
    {
      LibresAcotado(bitmap[..]);
      var necesarios := ContarNecesarios(segs);
      if necesarios > bitmap.Length {
        return false;
      }
      var libres := ContarLibres();
      alcanza := necesarios <= libres;
    }

    /** The two phases of a suspension whose blocks are available: reserve and copy, then commit or roll back. */
    method MoverASwap(k: nat) returns (ok: bool)
      requires Valid() && k < |contextos| && swapActivo && blockSize > 0
      requires Necesarios(contextos[k].segmentos, blockSize) <= Libres(bitmap[..])
      modifies this, bitmap, disp
      ensures Valid() && bitmap == old(bitmap) && disp == old(disp)
      ensures ok <==> disp.averias == old(disp.averias)
      ensures disp.averias >= old(disp.averias)
      ensures ok ==> exists nuevas :: Suspendido(old(Estado()), Estado(), k, nuevas)
      ensures !ok ==> SoloDisco(old(Estado()), Estado())
    {
      ghost var s := Estado();
      var nuevas := ReservarMetas(contextos[k].pid, contextos[k].segmentos);
      ghost var b1 := bitmap[..];
      ok := CopiarSegmentos(s, k, nuevas, b1);
      if ok {
        ConfirmarSuspension(s, k, nuevas);
      } else {
        DeshacerSuspension(s, b1, nuevas);
      }
    }

    method ConfirmarSuspension(ghost s: Km, k: nat, nuevas: seq<SwapMeta>)
      requires Forma() && Copiable(s, k, nuevas, bitmap[..]) && CopiadosHasta(s, k, nuevas, disp.disco, |nuevas|)
      requires DiscoOk(s, disp.disco) && Estado() == s.(bitmap := bitmap[..], disco := disp.disco)
      modifies this`huecos, this`metas, this`contextos
      ensures Valid() && Suspendido(s, Estado(), k, nuevas)
    {
      DevolverTodos(s, k);
      EntregarRangos(contextos[k].segmentos, nuevas);
      FusionarHuecos();
      contextos := contextos[k := contextos[k].(segmentos := [])];
      SuspendidoInv(s, Estado(), k, nuevas);
    }

    method DeshacerSuspension(ghost s: Km, ghost b1: seq<bool>, nuevas: seq<SwapMeta>)
      requires Forma() && Inv(s) && Reservado(s.bitmap, b1, nuevas) && bitmap[..] == b1 && DiscoOk(s, disp.disco) && s.swapActivo
      requires Estado() == s.(bitmap := b1, disco := disp.disco, swapActivo := swapActivo)
      modifies bitmap
      ensures Valid() && SoloDisco(s, Estado())
    {
      LiberarBloques(nuevas);
      DeshacerReserva(s.bitmap, b1, bitmap[..], nuevas);
      SoloDiscoPreserva(s, Estado());
    }

    static lemma DevolverTodos(s: Km, k: nat)
      requires Inv(s) && k < |s.contextos|
      ensures var h := s.huecos + Spans(s.contextos[k].segmentos); NonEmpty(h) && Bounded(h, U32_MAX)
    {
      var spans := Spans(s.contextos[k].segmentos);
      forall i | 0 <= i < |spans|
        ensures spans[i].size > 0 && spans[i].base + spans[i].size <= U32_MAX
      {
        Devolver(s, k, i);
        assert (s.huecos + [spans[i]])[|s.huecos|] == spans[i];
      }
      HuecosAcotados(s);
    }

    static lemma HuecosAcotados(s: Km)
      requires Inv(s)
      ensures Bounded(s.huecos, U32_MAX)
    {
      forall j | 0 <= j < |s.huecos|
        ensures s.huecos[j].base + s.huecos[j].size <= U32_MAX
      {
        HuecoEnMemoria(s, j);
      }
    }

    // -------------------------------------------------------------- desuspension

    /** Whether an entry is well formed: its size, its number of blocks, and all of them in use. */
    method ValidarMeta(m: SwapMeta) returns (ok: bool)
      requires blockSize > 0
      ensures ok <==> m.tamanio != 0 && |m.bloques| == Bloques(m.tamanio, blockSize)
                      && forall j :: 0 <= j < |m.bloques| ==> m.bloques[j] < bitmap.Length && bitmap[m.bloques[j]]
    {
      var esperados := m.tamanio / blockSize + Bit(m.tamanio % blockSize != 0);
      if m.tamanio == 0 || |m.bloques| != esperados {
        return false;
      }
      var b := 0;
      while b < |m.bloques|
        invariant 0 <= b <= |m.bloques|
        invariant forall j :: 0 <= j < b ==> m.bloques[j] < bitmap.Length && bitmap[m.bloques[j]]
      {
        if m.bloques[b] >= bitmap.Length || !bitmap[m.bloques[b]] {
          return false;
        }
        b := b + 1;
      }
      ok := true;
    }

    static lemma MetaValida(s: Km, i: nat)
      requires SwapOk(s) && i < |s.metas|
      ensures s.metas[i].tamanio != 0 && s.blockSize > 0 && |s.metas[i].bloques| == Bloques(s.metas[i].tamanio, s.blockSize)
      ensures forall j :: 0 <= j < |s.metas[i].bloques| ==> s.metas[i].bloques[j] < |s.bitmap| && s.bitmap[s.metas[i].bloques[j]]
    {
      var m := s.metas[i];
      assert MetaOk(s, m);
      forall j | 0 <= j < |m.bloques|
        ensures s.bitmap[m.bloques[j]]
      {
        UsoDeBloque(s.metas, i, j);
      }
    }

    /** The entries of a process, in list order; none of them is ever found malformed. */
    method RecolectarMetas(pid: U32) returns (r: seq<SwapMeta>, ok: bool)
      requires SwapOk(Estado()) && blockSize > 0
      ensures ok && r == MetasDe(metas, pid)
    {
      hide Owned;
      r := [];
      var i := 0;
      while i < |metas|
        invariant 0 <= i <= |metas|
        invariant r + MetasDe(metas[i..], pid) == MetasDe(metas, pid)
      {
        assert metas[i..][1..] == metas[i + 1..];
        if metas[i].pid == pid {
          MetaValida(Estado(), i);
          ok := ValidarMeta(metas[i]);
          if !ok {
            return;
          }
          r := r + [metas[i]];
        }
        i := i + 1;
      }
      ok := true;
    }

    /** Takes a hole for every entry, or gives back what was taken. */
    method ReservarHuecos(ms: seq<SwapMeta>) returns (r: Option<seq<Interval>>)
      requires Sanos(huecos) && Bounded(huecos, U32_MAX) && forall i :: 0 <= i < |ms| ==> ms[i].tamanio > 0
      modifies this`huecos
      ensures match Colocar(cfg.peor, old(huecos), Tamanios(ms), [])
        case Some(c) => r == Some(c.spans) && huecos == c.huecos
        case None => r == None && NonEmpty(huecos) && Coalesced(huecos) && SameCover(huecos, old(huecos))
    {
      ghost var h0, ns := huecos, Tamanios(ms);
      var spans: seq<Interval> := [];
      ReservandoInicio(cfg.peor, h0, ns);
      var i := 0;
      while i < |ms|
        invariant 0 <= i <= |ms| && Reservando(cfg.peor, h0, huecos, ns, spans, i)
      {
        var tamanio := ms[i].tamanio;
        var h := SeleccionarHueco(tamanio);
        if h.None? {
          ReservandoFalla(cfg.peor, h0, huecos, ns, spans, i);
          DevolverReserva(cfg.peor, h0, huecos, ns, spans, i);
          DevolverHuecos(spans);
          return None;
        }
        ReservandoPaso(cfg.peor, h0, huecos, ns, spans, i, h.value);
        spans := spans + [Interval(huecos[h.value].base, tamanio)];
        OcuparHueco(h.value, tamanio);
        i := i + 1;
      }
      assert ns[i..] == [];
      r := Some(spans);
    }

    method DevolverHuecos(spans: seq<Interval>)
      requires NonEmpty(huecos + spans) && Bounded(huecos + spans, U32_MAX)
      modifies this`huecos
      ensures NonEmpty(huecos) && Coalesced(huecos) && SameCover(huecos, old(huecos) + spans)
    {
      var i := 0;
      while i < |spans|
        invariant 0 <= i <= |spans| && huecos == old(huecos) + spans[..i]
      {
        AgregarHueco(spans[i].base, spans[i].size);
        i := i + 1;
      }
      assert spans[..i] == spans;
      FusionarHuecos();
    }

    /** Reads the blocks of an entry, cut to the saved size. */
    method LeerGuardado(m: SwapMeta) returns (r: Option<seq<Byte>>)
      requires swapActivo && 0 < blockSize && bitmap.Length == |disp.disco|
      requires forall j :: 0 <= j < |m.bloques| ==> m.bloques[j] < bitmap.Length
      modifies this`swapActivo, disp
      ensures disp.disco == old(disp.disco)
      ensures r.Some? ==> swapActivo && disp.averias == old(disp.averias) && r.value == Guardado(disp.disco, m)
      ensures r.None? ==> disp.averias > old(disp.averias)
    {
      var datos: seq<Byte> := [];
      var b := 0;
      while b < |m.bloques|
        invariant 0 <= b <= |m.bloques| && swapActivo && disp.averias == old(disp.averias) && disp.disco == old(disp.disco)
        invariant datos == Tope(Juntar(disp.disco, m.bloques[..b]), m.tamanio)
      {
        JuntarUltimo(disp.disco, m.bloques, b + 1);
        var bloque := SwapLeerBloque(m.bloques[b]);
        if bloque.None? {
          return None;
        }
        TopePaso(Juntar(disp.disco, m.bloques[..b]), bloque.value, m.tamanio);
        var restante := m.tamanio - |datos|;
        var chunk := Min(restante, |bloque.value|);
        datos := datos + bloque.value[..chunk];
        b := b + 1;
      }
      assert m.bloques[..b] == m.bloques;
      r := Some(datos);
    }

    method LeerTodos(ms: seq<SwapMeta>) returns (r: Option<seq<seq<Byte>>>)
      requires swapActivo && 0 < blockSize && bitmap.Length == |disp.disco|
      requires forall i, j :: 0 <= i < |ms| && 0 <= j < |ms[i].bloques| ==> ms[i].bloques[j] < bitmap.Length
      modifies this`swapActivo, disp
      ensures disp.disco == old(disp.disco)
      ensures r.Some? ==> swapActivo && disp.averias == old(disp.averias) && |r.value| == |ms| && Guardados(ms, disp.disco, r.value)
      ensures r.None? ==> disp.averias > old(disp.averias)
    {
      var datos: seq<seq<Byte>> := [];
      while |datos| < |ms|
        invariant |datos| <= |ms| && swapActivo && disp.averias == old(disp.averias) && disp.disco == old(disp.disco)
        invariant Guardados(ms, disp.disco, datos)
      {
        var uno := LeerGuardado(ms[|datos|]);
        if uno.None? {
          return None;
        }
        datos := datos + [uno.value];
      }
      r := Some(datos);
    }

    /** Writes the data of every range. */
    method EscribirTodos(spans: seq<Interval>, datos: seq<seq<Byte>>) returns (ok: bool)
      requires Forma() && |datos| == |spans| && forall a :: Cover(spans, a) <= 1
      requires forall i :: 0 <= i < |spans| ==>
        0 < |datos[i]| == spans[i].size <= I32_MAX && spans[i].base + spans[i].size <= |fisica.flat|
      modifies fisica.Repr
      ensures Forma() && fisica.Repr == old(fisica.Repr) && fisica.sticks == old(fisica.sticks) && ok
      ensures CargadosHasta(old(fisica.flat), fisica.flat, spans, datos, |spans|)
    {
      var i := 0;
      while i < |spans|
        invariant 0 <= i <= |spans| && Forma() && fisica.Repr == old(fisica.Repr) && fisica.sticks == old(fisica.sticks)
        invariant CargadosHasta(old(fisica.flat), fisica.flat, spans, datos, i)
      {
        CargarPaso(old(fisica.flat), fisica.flat, spans, datos, i);
        ok := fisica.EscribirFisico(spans[i].base, datos[i]);
        if !ok {
          return;
        }
        i := i + 1;
      }
      ok := true;
    }

    /** The table of the restored segments. */
    method ArmarTabla(ms: seq<SwapMeta>, spans: seq<Interval>) returns (segs: seq<Segmento>)
      requires Forma() && |ms| == |spans| && forall i :: 0 <= i < |spans| ==> spans[i].base < Total(fisica.sticks) && spans[i].size == ms[i].tamanio
      ensures |segs| == |ms| && forall i :: 0 <= i < |segs| ==> SegmentoDe(fisica.sticks, ms[i], spans[i], segs[i])
    {
      CountBound(fisica.sticks);
      segs := [];
      while |segs| < |ms|
        invariant |segs| <= |ms| && forall i :: 0 <= i < |segs| ==> SegmentoDe(fisica.sticks, ms[i], spans[i], segs[i])
      {
        var i := |segs|;
        var m := fisica.MsParaDireccion(spans[i].base);
        segs := segs + [Segmento(ms[i].id, m.value, spans[i].base, ms[i].tamanio)];
      }
    }

    /** Takes the first entry equal to `m` out of the list. */
    method QuitarMeta(m: SwapMeta)
      requires MetasDe(metas, m.pid) != [] && MetasDe(metas, m.pid)[0] == m
      modifies this`metas
      ensures MetasDe(metas, m.pid) == MetasDe(old(metas), m.pid)[1..] && MetasSin(metas, m.pid) == MetasSin(old(metas), m.pid)
    {
      ghost var p := PrimeraDe(metas, m.pid);
      var j := 0;
      while metas[j] != m
        invariant 0 <= j <= p
        decreases p - j
      {
        j := j + 1;
      }
      QuitarPrimera(metas, j, m.pid);
      metas := RemoveAt(metas, j);
    }

    /** Frees the blocks of the restored entries and drops the entries. */
    method SoltarMetas(pid: U32, ms: seq<SwapMeta>)
      requires bitmap.Length <= U32_MAX && ms == MetasDe(metas, pid)
      modifies this`metas, bitmap
      ensures metas == MetasSin(old(metas), pid) && Liberado(old(bitmap[..]), bitmap[..], ms)
    {
      var i := 0;
      LiberadoNada(bitmap[..]);
      while i < |ms|
        invariant 0 <= i <= |ms|
        invariant MetasDe(metas, pid) == ms[i..] && MetasSin(metas, pid) == MetasSin(old(metas), pid)
        invariant Liberado(old(bitmap[..]), bitmap[..], ms[..i])
      {
        ghost var antes := bitmap[..];
        LiberarEntrada(ms[i].bloques);
        LiberadoPaso(old(bitmap[..]), antes, bitmap[..], ms, i);
        QuitarMeta(ms[i]);
        i := i + 1;
      }
      assert ms[..i] == ms;
      SinEntradas(metas, pid);
    }

    /** Brings every segment of a process back from swap, or leaves it there. */
    method DessuspenderProceso(pid: U32) returns (r: Reanudacion)
      requires Valid()
      modifies this, bitmap, disp, fisica.Repr
      ensures Valid() && bitmap == old(bitmap) && disp == old(disp) && fisica.Repr == old(fisica.Repr)
      ensures DesuspenderStep(old(Estado()), Estado(), cfg.peor, pid, disp.averias > old(disp.averias), r)
      ensures r == Restaurado <==>
        Volvible(old(Estado()), pid) && (!TieneEntrada(old(Estado()), pid) || (SeColoca(old(Estado()), cfg.peor, pid) && !(disp.averias > old(disp.averias))))
      ensures Volvible(old(Estado()), pid) && !TieneEntrada(old(Estado()), pid) ==> Estado() == old(Estado())
    {
      ghost var s := Estado();
      r := Fallo;
      var ctx := BuscarContexto(pid);
      if ctx.Some? && contextos[ctx.value].segmentos == [] && swapActivo && bitmap.Length != 0 && blockSize != 0 {
        r := TraerSiHay(pid, ctx.value);
      }
      DesuspenderResponde(s, Estado(), cfg.peor, pid, disp.averias > old(disp.averias), r);
    }

    /** A process with nothing in swap is back already. */
    method TraerSiHay(pid: U32, k: nat) returns (r: Reanudacion)
      requires Valid() && Buscar(contextos, pid) == Some(k) && contextos[k].segmentos == [] && swapActivo && bitmap.Length != 0 && blockSize != 0
      modifies this, bitmap, disp, fisica.Repr
      ensures Valid() && bitmap == old(bitmap) && disp == old(disp) && fisica.Repr == old(fisica.Repr)
      ensures DesuspenderStep(old(Estado()), Estado(), cfg.peor, pid, disp.averias > old(disp.averias), r)
    {
      var ms, ok := RecolectarMetas(pid);
      if ms == [] {
        return Restaurado;
      }
      r := TraerDeSwap(k, ms);
    }

    /** Reserve; then read, write and commit, or roll back. */
    method TraerDeSwap(k: nat, ms: seq<SwapMeta>) returns (r: Reanudacion)
      requires Valid() && k < |contextos| && contextos[k].segmentos == [] && swapActivo && ms == MetasDe(metas, contextos[k].pid)
      modifies this, bitmap, disp, fisica.Repr
      ensures Valid() && bitmap == old(bitmap) && disp == old(disp) && fisica.Repr == old(fisica.Repr)
      ensures disp.averias >= old(disp.averias)
      ensures var s := old(Estado());
        if Colocar(cfg.peor, s.huecos, Tamanios(ms), []).None? then
          r == NoCabe && Deshecho(s, Estado()) && fisica.flat == s.mem && swapActivo && disp.averias == old(disp.averias)
        else if disp.averias > old(disp.averias) then r == Fallo && Deshecho(s, Estado())
        else r == Restaurado && Reanudado(s, Estado(), cfg.peor, k)
    {
      ghost var s := Estado();
      HuecosSanos(s);
      HuecosAcotados(s);
      MetasPositivas(s, contextos[k].pid);
      var spans := ReservarHuecos(ms);
      if spans.None? {
        DeshechoPreserva(s, Estado());
        return NoCabe;
      }
      var ok := Restaurar(s, k, ms, spans.value);
      r := if ok then Restaurado else Fallo;
    }

    static lemma MetasPositivas(s: Km, pid: U32)
      requires SwapOk(s)
      ensures forall i :: 0 <= i < |MetasDe(s.metas, pid)| ==> MetasDe(s.metas, pid)[i].tamanio > 0
    {
      forall i | 0 <= i < |MetasDe(s.metas, pid)|
        ensures MetasDe(s.metas, pid)[i].tamanio > 0
      {
        MetaDe(s, pid, i);
      }
    }

    /** Everything after the reservation. */
    method Restaurar(ghost s: Km, k: nat, ms: seq<SwapMeta>, spans: seq<Interval>) returns (ok: bool)
      requires Forma() && Reanudable(s, cfg.peor, k, ms, Colocacion(spans, huecos)) && s.swapActivo
      requires Estado() == s.(huecos := huecos)
      modifies this, bitmap, disp, fisica.Repr
      ensures Valid() && bitmap == old(bitmap) && disp == old(disp) && fisica.Repr == old(fisica.Repr)
      ensures ok <==> disp.averias == old(disp.averias)
      ensures disp.averias >= old(disp.averias)
      ensures ok ==> Reanudado(s, Estado(), cfg.peor, k)
      ensures !ok ==> Deshecho(s, Estado())
    {
      ReanudableBloques(s, cfg.peor, k, ms, Colocacion(spans, huecos));
      var datos := LeerTodos(ms);
      if datos.None? {
        DeshacerDesuspension(s, k, ms, spans);
        return false;
      }
      ReanudableDatos(s, cfg.peor, k, ms, Colocacion(spans, huecos), datos.value);
      ok := EscribirTodos(spans, datos.value);
      ConfirmarDesuspension(s, k, ms, spans, datos.value);
    }

    method DeshacerDesuspension(ghost s: Km, ghost k: nat, ghost ms: seq<SwapMeta>, spans: seq<Interval>)
      requires Forma() && Reanudable(s, cfg.peor, k, ms, Colocacion(spans, huecos)) && s.swapActivo
      requires Estado() == s.(huecos := huecos, swapActivo := swapActivo)
      modifies this`huecos
      ensures Valid() && Deshecho(s, Estado())
    {
      ReanudableDevuelve(s, cfg.peor, k, ms, Colocacion(spans, huecos));
      DevolverHuecos(spans);
      DeshechoPreserva(s, Estado());
    }

    method ConfirmarDesuspension(ghost s: Km, k: nat, ms: seq<SwapMeta>, spans: seq<Interval>, ghost datos: seq<seq<Byte>>)
      requires Forma() && Reanudable(s, cfg.peor, k, ms, Colocacion(spans, huecos))
      requires |datos| == |ms| == |spans| && Guardados(ms, s.disco, datos)
      requires CargadosHasta(s.mem, fisica.flat, spans, datos, |spans|) && Estado() == s.(huecos := huecos, mem := fisica.flat)
      modifies this`contextos, this`metas, bitmap
      ensures Valid() && Reanudado(s, Estado(), cfg.peor, k)
    {
      ReanudableBases(s, cfg.peor, k, ms, Colocacion(spans, huecos));
      var segs := ArmarTabla(ms, spans);
      InstalarTabla(k, segs, ms);
      ArmarReanudado(s, Estado(), cfg.peor, k, ms, Colocacion(spans, huecos), segs, datos);
    }

    method InstalarTabla(k: nat, segs: seq<Segmento>, ms: seq<SwapMeta>)
      requires Forma() && k < |contextos| && bitmap.Length <= U32_MAX && ms == MetasDe(metas, contextos[k].pid)
      modifies this`contextos, this`metas, bitmap
      ensures Forma() && Liberado(old(bitmap[..]), bitmap[..], ms)
      ensures Estado() == old(Estado()).(contextos := old(contextos)[k := old(contextos[k]).(segmentos := segs)],
                metas := MetasSin(old(metas), old(contextos[k].pid)), bitmap := bitmap[..])
    {
      contextos := contextos[k := contextos[k].(segmentos := segs)];
      SoltarMetas(contextos[k].pid, ms);
    }

    // -------------------------------------------------------------- finishing a process

    /** Deletes the segments of a process one by one, always the first of the table. */
    method VaciarProceso(k: nat)
      requires Valid() && k < |contextos|
      modifies this`huecos, this`contextos
      ensures Valid() && contextos == old(contextos)[k := old(contextos[k]).(segmentos := [])]
      ensures SameCover(huecos, old(huecos) + Spans(old(contextos[k].segmentos)))
    {
      ghost var h0, segs := huecos, contextos[k].segmentos;
      ghost var i := 0;
      assert segs[0..] == segs && contextos[k := contextos[k].(segmentos := segs)] == contextos;
      assert h0 + Spans(segs)[..0] == h0;
      while contextos[k].segmentos != []
        invariant Valid() && 0 <= i <= |segs|
        invariant contextos == old(contextos)[k := old(contextos[k]).(segmentos := segs[i..])]
        invariant SameCover(huecos, h0 + Spans(segs)[..i])
        decreases |segs| - i
      {
        ghost var antes := huecos;
        EliminarPrimero(k);
        CubreUnoMas(h0, Spans(segs), i, antes, huecos);
        i := i + 1;
      }
      assert Spans(segs)[..i] == Spans(segs);
    }

    method EliminarPrimero(k: nat)
      requires Valid() && k < |contextos| && contextos[k].segmentos != []
      modifies this`huecos, this`contextos
      ensures Valid() && contextos == old(contextos)[k := old(contextos[k]).(segmentos := old(contextos[k]).segmentos[1..])]
      ensures SameCover(huecos, old(huecos) + [Span(old(contextos[k].segmentos[0]))])
    {
      ghost var s := Estado();
      BuscarUnico(contextos, k);
      EliminarSegmento(k, contextos[k].segmentos[0].id);
      assert Eliminado(s, Estado(), k, 0);
      assert RemoveAt(s.contextos[k].segmentos, 0) == s.contextos[k].segmentos[1..];
    }

    static lemma CubreUnoMas(h0: seq<Interval>, spans: seq<Interval>, i: nat, h1: seq<Interval>, h2: seq<Interval>)
      requires i < |spans| && SameCover(h1, h0 + spans[..i]) && SameCover(h2, h1 + [spans[i]])
      ensures SameCover(h2, h0 + spans[..i + 1])
    {
      forall a
        ensures Cover(h2, a) == Cover(h0 + spans[..i + 1], a)
      {
        assert h0 + spans[..i + 1] == h0 + spans[..i] + [spans[i]];
        CoverAppend(h1, [spans[i]], a);
        CoverAppend(h0 + spans[..i], [spans[i]], a);
        assert Cover(h2, a) == Cover(h1 + [spans[i]], a);
        assert Cover(h1, a) == Cover(h0 + spans[..i], a);
      }
    }

    /** Drops the swap entries of a process, from the last to the first, and frees their blocks. */
    method LiberarSwapDe(pid: U32)
      requires bitmap.Length <= U32_MAX
      modifies this`metas, bitmap
      ensures metas == MetasSin(old(metas), pid) && Liberado(old(bitmap[..]), bitmap[..], MetasDe(old(metas), pid))
    {
      ghost var m0, b0 := metas, bitmap[..];
      LiberadoNada(b0);
      var i := |metas|;
      while i > 0
        invariant 0 <= i <= |m0| && EnCurso(m0, metas, pid, i, b0, bitmap[..])
      {
        i := i - 1;
        EnCursoPaso(m0, metas, pid, i, b0, bitmap[..]);
        if metas[i].pid == pid {
          ghost var antes := bitmap[..];
          LiberarEntrada(metas[i].bloques);
          EnCursoQuita(m0, metas, pid, i, b0, antes, bitmap[..]);
          metas := RemoveAt(metas, i);
        }
      }
      assert m0[0..] == m0;
    }

    /** Frees everything a process has: its ranges, its blocks, its context. */
    method FinalizarProceso(pid: U32)
      requires Valid()
      modifies this`huecos, this`contextos, this`metas, bitmap
      ensures Valid() && FinalizarStep(old(Estado()), Estado(), pid)
    {
      var ctx := BuscarContexto(pid);
      if ctx.Some? {
        Terminar(ctx.value);
      }
    }

    method Terminar(k: nat)
      requires Valid() && k < |contextos|
      modifies this`huecos, this`contextos, this`metas, bitmap
      ensures Valid() && Finalizado(old(Estado()), Estado(), k)
    {
      hide Tiled, SegmentosOk, Contiguous, Owned;
      ghost var s := Estado();
      VaciarProceso(k);
      LiberarSwapDe(contextos[k].pid);
      assert RemoveAt(contextos, k) == RemoveAt(s.contextos, k);
      contextos := RemoveAt(contextos, k);
      FinalizadoInv(s, Estado(), k);
    }

    // -------------------------------------------------------------- requests

    method AtenderCrearProceso(pid: U32) returns (ok: bool)
      requires Valid()
      modifies this`contextos
      ensures Valid() && Paso(cfg, old(Estado()), CrearProceso(pid, ok), Estado())
      ensures ok <==> !Conoce(old(Estado()), pid)
    {
      hide Tiled, SegmentosOk, Contiguous, Owned, NonEmpty, Coalesced;
      ghost var s := Estado();
      var ctx := BuscarContexto(pid);
      ok := ctx.None?;
      if ok {
        contextos := contextos + [Contexto(pid, REGISTROS_CERO, [])];
      }
      CrearProcesoPreserva(s, Estado(), pid, ok);
      CrearProcesoResponde(s, Estado(), pid, ok);
    }

    /** Only the registers are stored; a context that no longer exists is ignored. */
    method AtenderGuardarContexto(nuevo: Contexto)
      requires Valid()
      modifies this`contextos
      ensures Valid() && Paso(cfg, old(Estado()), GuardarContexto(nuevo.pid, nuevo.registros), Estado())
    {
      ghost var s := Estado();
      var ctx := BuscarContexto(nuevo.pid);
      if ctx.Some? {
        contextos := contextos[ctx.value := contextos[ctx.value].(registros := nuevo.registros)];
      }
      GuardarContextoPreserva(s, Estado(), nuevo.pid, nuevo.registros);
    }

    method AtenderRestaurarContexto(pid: U32) returns (r: Option<Contexto>)
      ensures r.Some? <==> exists c :: c in contextos && c.pid == pid
      ensures r.Some? ==> r.value.pid == pid && r.value in contextos
    {
      var ctx := BuscarContexto(pid);
      r := if ctx.Some? then Some(contextos[ctx.value]) else None;
    }

    /** Answers at once, or keeps the request and answers after the compaction. */
    method AtenderCrearSegmento(pid: U32, id: U32, tamanio: U32) returns (r: Option<bool>)
      requires Valid()
      modifies this`huecos, this`contextos, this`pendiente
      ensures Valid() && Paso(cfg, old(Estado()), PedirSegmento(Pedido(pid, id, tamanio), r), Estado())
      ensures r == Some(true) <==> Pedible(old(Estado()), cfg.segMax, Pedido(pid, id, tamanio)) && CabeJunto(old(Estado()), tamanio)
      ensures r == None <==>
        Pedible(old(Estado()), cfg.segMax, Pedido(pid, id, tamanio)) && !CabeJunto(old(Estado()), tamanio) && Sum(old(huecos)) >= tamanio
    {
      hide Inv, Pedible, CabeJunto;
      ghost var s := Estado();
      r := PedirUno(pid, id, tamanio);
      PedirSegmentoResponde(s, Estado(), cfg.segMax, cfg.peor, Pedido(pid, id, tamanio), r);
    }

    method PedirUno(pid: U32, id: U32, tamanio: U32) returns (r: Option<bool>)
      requires Valid()
      modifies this`huecos, this`contextos, this`pendiente
      ensures Valid() && PedirSegmentoStep(old(Estado()), Estado(), cfg.segMax, cfg.peor, Pedido(pid, id, tamanio), r)
    {
      ghost var s := Estado();
      var res := CrearDe(pid, id, tamanio);
      if res == Resultado.Compactar {
        pendiente := Some(Pedido(pid, id, tamanio));
        PendienteVista(s, pendiente);
        return None;
      }
      r := Some(res == Ok);
      assert CrearStep(s, Estado(), cfg.segMax, cfg.peor, pid, id, tamanio, res);
    }

    method CrearDe(pid: U32, id: U32, tamanio: U32) returns (r: Resultado)
      requires Valid()
      modifies this`huecos, this`contextos
      ensures Valid() && CrearStep(old(Estado()), Estado(), cfg.segMax, cfg.peor, pid, id, tamanio, r)
    {
      var ctx := BuscarContexto(pid);
      if ctx.None? {
        return Error;
      }
      r := CrearSegmento(ctx.value, id, tamanio);
    }

    method AtenderEliminarSegmento(pid: U32, id: U32)
      requires Valid()
      modifies this`huecos, this`contextos
      ensures Valid() && Paso(cfg, old(Estado()), Evento.EliminarSegmento(pid, id), Estado())
    {
      var ctx := BuscarContexto(pid);
      if ctx.Some? {
        EliminarSegmento(ctx.value, id);
      }
    }

    /** Compacts and answers the request that was waiting, if any. */
    method CompactarYReintentar() returns (r: Option<bool>)
      requires Valid()
      modifies this`huecos, this`contextos, this`pendiente, fisica.Repr
      ensures Valid() && fisica.Repr == old(fisica.Repr)
      ensures FinCompactacionStep(old(Estado()), Estado(), cfg.segMax, cfg.peor, r)
    {
      ghost var s := Estado();
      Compactar();
      CompactadoPendiente(s);
      r := None;
      if pendiente.Some? {
        var p := pendiente.value;
        pendiente := None;
        assert Estado() == Compactado(s).(pendiente := None);
        var res := CrearDe(p.pid, p.id, p.tamanio);
        r := Some(res == Ok);
      }
    }

    method AtenderFinCompactacion() returns (r: Option<bool>)
      requires Valid()
      modifies this`huecos, this`contextos, this`pendiente, fisica.Repr
      ensures Valid() && fisica.Repr == old(fisica.Repr)
      ensures Paso(cfg, old(Estado()), FinCompactacion(old(pendiente), r == Some(true)), Estado())
      ensures r.Some? <==> old(pendiente).Some?
    {
      r := CompactarYReintentar();
    }

    method AtenderSuspender(pid: U32) returns (ok: bool)
      requires Valid()
      modifies this, bitmap, disp
      ensures Valid() && Paso(cfg, old(Estado()), Suspender(pid, disp.averias > old(disp.averias), ok), Estado())
      ensures ok <==>
        Conoce(old(Estado()), pid) && old(swapActivo) && (SinSegmentos(old(Estado()), pid) || (EntraEnSwap(old(Estado()), pid) && !(disp.averias > old(disp.averias))))
    {
      ok := SuspenderProceso(pid);
    }

    /** The reply tells success from failure only; the reason stays here. */
    method AtenderDessuspender(pid: U32) returns (ok: bool, res: Reanudacion)
      requires Valid()
      modifies this, bitmap, disp, fisica.Repr
      ensures Valid() && fisica.Repr == old(fisica.Repr)
      ensures Paso(cfg, old(Estado()), Desuspender(pid, disp.averias > old(disp.averias), res), Estado())
      ensures ok <==> res == Restaurado
      ensures ok <==>
        Volvible(old(Estado()), pid) && (!TieneEntrada(old(Estado()), pid) || (SeColoca(old(Estado()), cfg.peor, pid) && !(disp.averias > old(disp.averias))))
      ensures Volvible(old(Estado()), pid) && !TieneEntrada(old(Estado()), pid) ==> Estado() == old(Estado())
    {
      res := DessuspenderProceso(pid);
      ok := res == Restaurado;
    }

    method AtenderFinalizar(pid: U32)
      requires Valid()
      modifies this`huecos, this`contextos, this`metas, bitmap
      ensures Valid() && Paso(cfg, old(Estado()), Finalizar(pid), Estado())
    {
      FinalizarProceso(pid);
    }

    /** The physical address of a logical one, or UINT32_MAX for a fault. */
    method Traducir(k: nat, dir: U32, n: U32) returns (f: U32)
      requires k < |contextos|
      ensures f == TraducirDireccion(contextos[k].segmentos, cfg.segMax, dir, n)
    {
      if cfg.segMax <= 0 || n == 0 || dir / cfg.segMax > U32_MAX {
        return U32_MAX;
      }
      var num, desp := dir / cfg.segMax, dir % cfg.segMax;
      var i := BuscarEnTabla(contextos[k].segmentos, num);
      if i.None? {
        return U32_MAX;
      }
      var seg := contextos[k].segmentos[i.value];
      if desp > seg.limite || n > seg.limite - desp || seg.base > U32_MAX - desp {
        return U32_MAX;
      }
      f := seg.base + desp;
    }

    method AtenderLeerDatos(pid: U32, dir: U32, n: U32) returns (r: Option<seq<Byte>>)
      requires Valid()
      ensures Paso(cfg, Estado(), LeerDatos(pid, dir, n, r), Estado())
      ensures r.Some? <==> Alcanza(Estado(), cfg.segMax, pid, dir, n)
    {
      hide Inv, Alcanza, LeerDatosStep;
      r := LeerLogico(pid, dir, n);
      LeerDatosResponde(Estado(), cfg.segMax, pid, dir, n, r);
    }

    method LeerLogico(pid: U32, dir: U32, n: U32) returns (r: Option<seq<Byte>>)
      requires Valid()
      ensures LeerDatosStep(Estado(), cfg.segMax, pid, dir, n, r)
    {
      hide Tiled, SegmentosOk, SwapOk, TraducirEn, NonEmpty, Coalesced, Contiguous;
      var ctx := BuscarContexto(pid);
      if ctx.None? {
        return None;
      }
      var f := Traducir(ctx.value, dir, n);
      if f == U32_MAX {
        return None;
      }
      ghost var i := TraduceDentro(Estado(), ctx.value, cfg.segMax, dir, n);
      r := fisica.LeerFisico(f, n);
    }

    method EscribirLogico(pid: U32, dir: U32, datos: seq<Byte>) returns (ok: bool)
      requires Valid() && |datos| <= U32_MAX
      modifies fisica.Repr
      ensures Valid() && fisica.Repr == old(fisica.Repr)
      ensures EscribirDatosStep(old(Estado()), Estado(), cfg.segMax, pid, dir, datos, ok)
    {
      var ctx := BuscarContexto(pid);
      if ctx.None? {
        return false;
      }
      var f := Traducir(ctx.value, dir, |datos|);
      if f == U32_MAX {
        return false;
      }
      ok := EscribirTraducido(pid, ctx.value, dir, f, datos);
    }

    method EscribirTraducido(ghost pid: U32, ghost k: nat, ghost dir: U32, f: U32, datos: seq<Byte>) returns (ok: bool)
      requires Valid() && |datos| <= U32_MAX && Buscar(contextos, pid) == Some(k)
      requires f == TraducirDireccion(contextos[k].segmentos, cfg.segMax, dir, |datos|) != U32_MAX
      modifies fisica.Repr
      ensures Valid() && fisica.Repr == old(fisica.Repr)
      ensures ok && f + |datos| <= |old(fisica.flat)| == |fisica.flat|
      ensures Estado() == old(Estado()).(mem := Splice(old(fisica.flat), f, datos))
    {
      ghost var s := Estado();
      ghost var i := TraduceDentro(s, k, cfg.segMax, dir, |datos|);
      assert SegmentoOk(s.sticks, contextos[k].segmentos[i]);
      ok := fisica.EscribirFisico(f, datos);
      EscribirDatosPreserva(s, Estado(), cfg.segMax, pid, dir, datos, ok);
    }

    /** The declared size must be the size of the data. */
    method AtenderEscribirDatos(pid: U32, dir: U32, n: U32, datos: seq<Byte>) returns (ok: bool)
      requires Valid()
      modifies fisica.Repr
      ensures Valid() && fisica.Repr == old(fisica.Repr)
      ensures n != |datos| ==> !ok && Estado() == old(Estado())
      ensures n == |datos| ==> Paso(cfg, old(Estado()), EscribirDatos(pid, dir, datos, ok), Estado())
      ensures ok <==> n == |datos| && Alcanza(old(Estado()), cfg.segMax, pid, dir, n)
    {
      hide Inv, Alcanza, EscribirDatosStep;
      if n != |datos| {
        return false;
      }
      ghost var s := Estado();
      ok := EscribirLogico(pid, dir, datos);
      EscribirDatosResponde(s, Estado(), cfg.segMax, pid, dir, datos, ok);
    }

    /** A stick extends memory at the end; its bytes become one more hole. */
    method IncorporarStick(buffer: array<Byte>) returns (ok: bool)
      requires Valid() && buffer !in Repr() && buffer.Length <= U32_MAX
      modifies this`huecos, fisica
      ensures Valid() && old(fisica.Repr) <= fisica.Repr <= old(fisica.Repr) + {buffer}
      ensures RegistrarStickStep(old(Estado()), Estado(), buffer[..], ok)
    {
      hide Tiled, SwapOk, SegmentosOk, Contiguous, Coalesced;
      ghost var s := Estado();
      CountBound(fisica.sticks);
      HuecosAcotados(s);
      var offset := fisica.MemoriaTotal();
      ok := fisica.RegistrarStick(buffer);
      if ok {
        DevolverRango(offset, buffer.Length);
      }
      assert RegistrarStickStep(s, Estado(), buffer[..], ok);
      RegistrarStickPreserva(s, Estado(), buffer[..], ok);
    }

    method AtenderMemoryStick(buffer: array<Byte>) returns (ok: bool)
      requires Valid() && buffer !in Repr() && buffer.Length <= U32_MAX
      modifies this`huecos, fisica
      ensures Valid() && old(fisica.Repr) <= fisica.Repr <= old(fisica.Repr) + {buffer}
      ensures Paso(cfg, old(Estado()), RegistrarStick(buffer[..], ok), Estado())
      ensures ok <==> buffer.Length > 0 && |old(fisica.flat)| + buffer.Length <= U32_MAX
      ensures ok ==> fisica.flat == old(fisica.flat) + buffer[..]
    {
      hide Inv, RegistrarStickStep;
      ghost var s := Estado();
      ok := IncorporarStick(buffer);
      RegistrarStickResponde(s, Estado(), buffer[..], ok);
    }

    /** One swap device at a time, and none can replace one that still holds data. */
    method ConectarSwap(total: U32, bs: U32, nuevo: SwapDevice, cerrado: bool) returns (ok: bool)
      requires Valid() && nuevo !in fisica.Repr
      requires TamaniosSwap(total, bs) ==> |nuevo.disco| == total / bs && DelTamanio(nuevo.disco, bs)
      modifies this`swapActivo, this`blockSize, this`disp, this`bitmap
      ensures Valid() && (bitmap == old(bitmap) || fresh(bitmap)) && (disp == old(disp) || disp == nuevo)
      ensures IdentificarSwapStep(old(Estado()), Estado(), total, bs, cerrado, ok)
    {
      hide Tiled, SegmentosOk, Contiguous, NonEmpty, Coalesced, Owned, PidsDistintos;
      ghost var s := Estado();
      ok := false;
      if total != 0 && bs != 0 && total >= bs && total % bs == 0 && bs <= U32_MAX - 4 {
        var activo := swapActivo && !cerrado;
        swapActivo := activo;
        if !activo && metas == [] {
          bitmap := new bool[total / bs](_ => false);
          blockSize, disp, swapActivo := bs, nuevo, true;
          ok := true;
        }
      }
      IdentificarSwapPreserva(s, Estado(), total, bs, cerrado, ok);
    }

    method AtenderSwap(total: U32, bs: U32, nuevo: SwapDevice, cerrado: bool) returns (ok: bool)
      requires Valid() && nuevo !in fisica.Repr
      requires TamaniosSwap(total, bs) ==> |nuevo.disco| == total / bs && DelTamanio(nuevo.disco, bs)
      modifies this`swapActivo, this`blockSize, this`disp, this`bitmap
      ensures Valid() && (bitmap == old(bitmap) || fresh(bitmap)) && (disp == old(disp) || disp == nuevo)
      ensures Paso(cfg, old(Estado()), IdentificarSwap(total, bs, cerrado, ok), Estado())
      ensures ok <==> 0 < bs <= total && total % bs == 0 && bs <= U32_MAX - 4 && (!old(swapActivo) || cerrado) && metas == []
      ensures ok ==> swapActivo && blockSize == bs && bitmap.Length == total / bs && forall b :: 0 <= b < bitmap.Length ==> !bitmap[b]
    {
      hide Inv, IdentificarSwapStep;
      ghost var s := Estado();
      ok := ConectarSwap(total, bs, nuevo, cerrado);
      IdentificarSwapResponde(s, Estado(), total, bs, cerrado, ok);
      assert |bitmap[..]| == bitmap.Length && forall b :: 0 <= b < bitmap.Length ==> bitmap[..][b] == bitmap[b];
    }
  }
}
