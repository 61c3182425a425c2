/** The wire: big-endian words, the context codec, and length-prefixed messages over a stream that moves bytes in pieces of any size. */
module Sockets {
  import opened Basics
  import opened Contexto
  import opened CpuInstrucciones

  // ---------------------------------------------------------------- words

  /** htonl, byte by byte. */
  function Palabra(v: U32): (r: seq<Byte>)
    ensures |r| == 4
  {
    [v / 0x100_0000, v / 0x1_0000 % 256, v / 256 % 256, v % 256]
  }

  /** ntohl of the first four bytes. */
  function Valor(b: seq<Byte>): U32
    requires |b| >= 4
  {
    b[0] as int * 0x100_0000 + b[1] as int * 0x1_0000 + b[2] as int * 256 + b[3] as int
  }

  lemma ValorPalabra(v: U32)
    ensures Valor(Palabra(v)) == v
  {
    assert v / 0x1_0000 == v / 256 / 256;
    assert v / 0x100_0000 == v / 256 / 256 / 256;
  }

  lemma PalabraValor(b: seq<Byte>)
    requires |b| == 4
    ensures Palabra(Valor(b)) == b
  {
    var v := Valor(b);
    assert v % 256 == b[3];
    assert v / 256 == b[0] as int * 0x1_0000 + b[1] as int * 256 + b[2] as int;
    assert v / 256 % 256 == b[2];
    assert v / 0x1_0000 == v / 256 / 256 == b[0] as int * 256 + b[1] as int;
    assert v / 0x1_0000 % 256 == b[1];
    assert v / 0x100_0000 == v / 256 / 256 / 256 == b[0];
  }

  /** A word read back from the front of a longer string of bytes. */
  lemma ValorAlFrente(v: U32, resto: seq<Byte>)
    ensures Valor(Palabra(v) + resto) == v && (Palabra(v) + resto)[4..] == resto
  {
    ValorPalabra(v);
  }

  // ---------------------------------------------------------------- the context codec

  const CABECERA := 40
  const POR_SEGMENTO := 16

  function SegmentoABytes(s: Segmento): (r: seq<Byte>)
    ensures |r| == POR_SEGMENTO
  {
    Palabra(s.id) + Palabra(s.stick) + Palabra(s.base) + Palabra(s.limite)
  }

  function SegmentosABytes(segs: seq<Segmento>): (r: seq<Byte>)
    ensures |r| == POR_SEGMENTO * |segs|
  {
    if segs == [] then [] else SegmentoABytes(segs[0]) + SegmentosABytes(segs[1..])
  }

  function RegistrosABytes(r: Registros): (b: seq<Byte>)
    ensures |b| == 32
  {
    Palabra(r.pc) + [r.ax, r.bx, r.cx, r.dx] + Palabra(r.eax) + Palabra(r.ebx) + Palabra(r.ecx) + Palabra(r.edx)
    + Palabra(r.si) + Palabra(r.di)
  }

  /** The size of the message fits in a uint32. */
  predicate Transmisible(cant: nat) {
    CABECERA + POR_SEGMENTO * cant <= U32_MAX
  }

  function Serializado(c: Contexto): seq<Byte>
    requires Transmisible(|c.segmentos|)
  {
    Palabra(c.pid) + RegistrosABytes(c.registros) + Palabra(|c.segmentos|) + SegmentosABytes(c.segmentos)
  }

  function SegmentoDe(b: seq<Byte>): Segmento
    requires |b| >= POR_SEGMENTO
  {
    Segmento(Valor(b), Valor(b[4..]), Valor(b[8..]), Valor(b[12..]))
  }

  function SegmentosDe(b: seq<Byte>, cant: nat): (r: seq<Segmento>)
    requires |b| >= POR_SEGMENTO * cant
    ensures |r| == cant
  {
    if cant == 0 then [] else [SegmentoDe(b)] + SegmentosDe(b[POR_SEGMENTO..], cant - 1)
  }

  function RegistrosDe(b: seq<Byte>): Registros
    requires |b| >= 32
  {
    Registros(Valor(b), b[4], b[5], b[6], b[7], Valor(b[8..]), Valor(b[12..]), Valor(b[16..]), Valor(b[20..]), Valor(b[24..]), Valor(b[28..]))
  }

  /** The number of segments a message announces. */
  function Anunciados(b: seq<Byte>): U32
    requires |b| >= CABECERA
  {
    Valor(b[36..])
  }

  function Deserializado(b: seq<Byte>): Option<Contexto> {
    if |b| < CABECERA || |b| < CABECERA + POR_SEGMENTO * Anunciados(b) then None
    else Some(Contexto(Valor(b), RegistrosDe(b[4..]), SegmentosDe(b[CABECERA..], Anunciados(b))))
  }

  lemma SegmentoVuelve(s: Segmento, resto: seq<Byte>)
    ensures SegmentoDe(SegmentoABytes(s) + resto) == s && (SegmentoABytes(s) + resto)[POR_SEGMENTO..] == resto
  {
    var b := SegmentoABytes(s) + resto;
    assert b == Palabra(s.id) + (Palabra(s.stick) + (Palabra(s.base) + (Palabra(s.limite) + resto)));
    ValorAlFrente(s.id, Palabra(s.stick) + (Palabra(s.base) + (Palabra(s.limite) + resto)));
    ValorAlFrente(s.stick, Palabra(s.base) + (Palabra(s.limite) + resto));
    ValorAlFrente(s.base, Palabra(s.limite) + resto);
    ValorAlFrente(s.limite, resto);
    assert b[8..] == b[4..][4..] && b[12..] == b[8..][4..];
  }

  lemma {:induction false} SegmentosVuelven(segs: seq<Segmento>, resto: seq<Byte>)
    ensures SegmentosDe(SegmentosABytes(segs) + resto, |segs|) == segs
  {
    if segs != [] {
      var cola := SegmentosABytes(segs[1..]) + resto;
      assert SegmentosABytes(segs) + resto == SegmentoABytes(segs[0]) + cola;
      SegmentoVuelve(segs[0], cola);
      SegmentosVuelven(segs[1..], resto);
    }
  }

  lemma RegistrosVuelven(r: Registros, resto: seq<Byte>)
    ensures RegistrosDe(RegistrosABytes(r) + resto) == r && (RegistrosABytes(r) + resto)[32..] == resto
  {
    var b := RegistrosABytes(r) + resto;
    ValorPalabra(r.pc);
    ValorPalabra(r.eax);
    ValorPalabra(r.ebx);
    ValorPalabra(r.ecx);
    ValorPalabra(r.edx);
    ValorPalabra(r.si);
    ValorPalabra(r.di);
    assert b[..4] == Palabra(r.pc);
    assert b[8..][..4] == Palabra(r.eax);
    assert b[12..][..4] == Palabra(r.ebx);
    assert b[16..][..4] == Palabra(r.ecx);
    assert b[20..][..4] == Palabra(r.edx);
    assert b[24..][..4] == Palabra(r.si);
    assert b[28..][..4] == Palabra(r.di);
  }

  /** Whatever is saved is restored: registers, segment table and pid, even with bytes to spare at the end. */
  lemma IdaYVueltaContexto(c: Contexto, resto: seq<Byte>)
    requires Transmisible(|c.segmentos|)
    ensures Deserializado(Serializado(c) + resto) == Some(c)
  {
    var n := |c.segmentos|;
    var b := Serializado(c) + resto;
    var segs := SegmentosABytes(c.segmentos) + resto;
    assert b == Palabra(c.pid) + (RegistrosABytes(c.registros) + (Palabra(n) + segs));
    ValorAlFrente(c.pid, RegistrosABytes(c.registros) + (Palabra(n) + segs));
    RegistrosVuelven(c.registros, Palabra(n) + segs);
    ValorAlFrente(n, segs);
    assert b[36..] == b[4..][32..] && b[40..] == b[36..][4..];
    SegmentosVuelven(c.segmentos, resto);
  }

  lemma SegmentoExacto(b: seq<Byte>)
    requires |b| >= POR_SEGMENTO
    ensures SegmentoABytes(SegmentoDe(b)) == b[..POR_SEGMENTO]
  {
    hide Palabra;
    PalabraValor(b[..4]);
    PalabraValor(b[4..][..4]);
    PalabraValor(b[8..][..4]);
    PalabraValor(b[12..][..4]);
    assert b[..POR_SEGMENTO] == b[..4] + b[4..][..4] + b[8..][..4] + b[12..][..4];
  }

  lemma {:induction false} SegmentosExactos(b: seq<Byte>, cant: nat)
    requires |b| == POR_SEGMENTO * cant
    ensures SegmentosABytes(SegmentosDe(b, cant)) == b
  {
    hide SegmentoDe, SegmentoABytes;
    if cant > 0 {
      SegmentosExactos(b[POR_SEGMENTO..], cant - 1);
      SegmentoExacto(b);
      assert b == b[..POR_SEGMENTO] + b[POR_SEGMENTO..];
    }
  }

  lemma RegistrosExactos(b: seq<Byte>)
    requires |b| == 32
    ensures RegistrosABytes(RegistrosDe(b)) == b
  {
    PalabraValor(b[..4]);
    PalabraValor(b[8..][..4]);
    PalabraValor(b[12..][..4]);
    PalabraValor(b[16..][..4]);
    PalabraValor(b[20..][..4]);
    PalabraValor(b[24..][..4]);
    PalabraValor(b[28..]);
    assert b == b[..4] + b[4..8] + b[8..][..4] + b[12..][..4] + b[16..][..4] + b[20..][..4] + b[24..][..4] + b[28..];
  }

  /** The codec loses nothing: a message of the announced size is the serialization of what is read from it. */
  lemma VueltaEIda(b: seq<Byte>, c: Contexto)
    requires Deserializado(b) == Some(c) && |b| == CABECERA + POR_SEGMENTO * |c.segmentos| <= U32_MAX
    ensures Serializado(c) == b
  {
    hide Palabra, RegistrosABytes, SegmentosABytes;
    PalabraValor(b[..4]);
    assert b[4..][..32] == b[4..36];
    RegistrosExactos(b[4..36]);
    assert RegistrosDe(b[4..]) == RegistrosDe(b[4..36]);
    PalabraValor(b[36..40]);
    SegmentosExactos(b[40..], |c.segmentos|);
    assert b == b[..4] + b[4..36] + b[36..40] + b[40..];
  }

  // ---------------------------------------------------------------- the layout, byte by byte

  /** The number `v` stands at position `i`, most significant byte first. */
  predicate EnRed(b: seq<Byte>, i: nat, v: int) {
    i + 4 <= |b| && 0x100_0000 * (b[i] as int) + 0x1_0000 * (b[i + 1] as int) + 0x100 * (b[i + 2] as int) + b[i + 3] as int == v
  }

  predicate SegmentoEnRed(b: seq<Byte>, i: nat, s: Segmento) {
    EnRed(b, i, s.id) && EnRed(b, i + 4, s.stick) && EnRed(b, i + 8, s.base) && EnRed(b, i + 12, s.limite)
  }

  predicate RegistrosEnRed(b: seq<Byte>, r: Registros) {
    && |b| >= 36 && EnRed(b, 4, r.pc)
    && b[8] == r.ax && b[9] == r.bx && b[10] == r.cx && b[11] == r.dx
    && EnRed(b, 12, r.eax) && EnRed(b, 16, r.ebx) && EnRed(b, 20, r.ecx) && EnRed(b, 24, r.edx)
    && EnRed(b, 28, r.si) && EnRed(b, 32, r.di)
  }

  /** The registers a program names are those of these positions. */
  lemma NombresEnRed(b: seq<Byte>, r: Registros)
    requires RegistrosEnRed(b, r)
    ensures LeerRegistro(r, "AX") == Some(b[8]) && LeerRegistro(r, "BX") == Some(b[9]) && LeerRegistro(r, "CX") == Some(b[10]) && LeerRegistro(r, "DX") == Some(b[11])
    ensures forall n, v :: LeerRegistro(r, n) == Some(v) ==>
      && (n == "PC" ==> EnRed(b, 4, v)) && (n == "SI" ==> EnRed(b, 28, v)) && (n == "DI" ==> EnRed(b, 32, v))
      && (n == "EAX" ==> EnRed(b, 12, v)) && (n == "EBX" ==> EnRed(b, 16, v)) && (n == "ECX" ==> EnRed(b, 20, v)) && (n == "EDX" ==> EnRed(b, 24, v))
  {
    hide EnRed;
  }

  /** Where each field of a context stands in its message. */
  predicate ContextoEnRed(b: seq<Byte>, c: Contexto) {
    && EnRed(b, 0, c.pid) && RegistrosEnRed(b, c.registros) && EnRed(b, 36, |c.segmentos|)
    && forall i :: 0 <= i < |c.segmentos| ==> SegmentoEnRed(b, 40 + 16 * i, c.segmentos[i])
  }

  lemma ValorEnRed(b: seq<Byte>, i: nat, v: U32)
    requires i + 4 <= |b|
    ensures Valor(b[i..]) == v <==> EnRed(b, i, v)
  {
    assert b[i..][0] == b[i] && b[i..][1] == b[i + 1] && b[i..][2] == b[i + 2] && b[i..][3] == b[i + 3];
  }

  lemma SegmentoDeEnRed(b: seq<Byte>, i: nat, s: Segmento)
    requires i + POR_SEGMENTO <= |b|
    ensures SegmentoDe(b[i..]) == s <==> SegmentoEnRed(b, i, s)
  {
    hide Valor, EnRed;
    ValorEnRed(b, i, s.id);
    ValorEnRed(b, i + 4, s.stick);
    ValorEnRed(b, i + 8, s.base);
    ValorEnRed(b, i + 12, s.limite);
    assert b[i..][4..] == b[i + 4..] && b[i..][8..] == b[i + 8..] && b[i..][12..] == b[i + 12..];
  }

  lemma {:induction false} SegmentosDeEnRed(b: seq<Byte>, desde: nat, segs: seq<Segmento>)
    requires |b| >= desde + POR_SEGMENTO * |segs|
    ensures SegmentosDe(b[desde..], |segs|) == segs
       <==> forall i :: 0 <= i < |segs| ==> SegmentoEnRed(b, desde + POR_SEGMENTO * i, segs[i])
    decreases |segs|
  {
    hide SegmentoDe, SegmentoEnRed;
    if segs != [] {
      SegmentoDeEnRed(b, desde, segs[0]);
      assert b[desde..][POR_SEGMENTO..] == b[desde + POR_SEGMENTO..];
      SegmentosDeEnRed(b, desde + POR_SEGMENTO, segs[1..]);
      var resto := SegmentosDe(b[desde + POR_SEGMENTO..], |segs| - 1);
      assert SegmentosDe(b[desde..], |segs|) == [SegmentoDe(b[desde..])] + resto;
      assert segs == [segs[0]] + segs[1..];
      assert ([SegmentoDe(b[desde..])] + resto)[1..] == resto;
      UnoMasEnRed(b, desde, segs);
    }
  }

  lemma UnoMasEnRed(b: seq<Byte>, desde: nat, segs: seq<Segmento>)
    requires segs != []
    ensures (forall i :: 0 <= i < |segs| ==> SegmentoEnRed(b, desde + POR_SEGMENTO * i, segs[i]))
       <==> SegmentoEnRed(b, desde, segs[0])
            && forall i :: 0 <= i < |segs[1..]| ==> SegmentoEnRed(b, desde + POR_SEGMENTO + POR_SEGMENTO * i, segs[1..][i])
  {
    hide SegmentoEnRed;
    if SegmentoEnRed(b, desde, segs[0]) && forall i :: 0 <= i < |segs[1..]| ==> SegmentoEnRed(b, desde + POR_SEGMENTO + POR_SEGMENTO * i, segs[1..][i]) {
      forall i | 0 <= i < |segs|
        ensures SegmentoEnRed(b, desde + POR_SEGMENTO * i, segs[i])
      {
        assert i > 0 ==> segs[i] == segs[1..][i - 1] && SegmentoEnRed(b, desde + POR_SEGMENTO + POR_SEGMENTO * (i - 1), segs[1..][i - 1]);
      }
    }
    if forall i :: 0 <= i < |segs| ==> SegmentoEnRed(b, desde + POR_SEGMENTO * i, segs[i]) {
      assert SegmentoEnRed(b, desde + POR_SEGMENTO * 0, segs[0]);
      forall i | 0 <= i < |segs[1..]|
        ensures SegmentoEnRed(b, desde + POR_SEGMENTO + POR_SEGMENTO * i, segs[1..][i])
      {
        assert SegmentoEnRed(b, desde + POR_SEGMENTO * (i + 1), segs[i + 1]);
      }
    }
  }

  lemma RegistrosDeEnRed(b: seq<Byte>, r: Registros)
    requires |b| >= 36
    ensures RegistrosDe(b[4..]) == r <==> RegistrosEnRed(b, r)
  {
    hide Valor, EnRed;
    ValorEnRed(b, 4, r.pc);
    ValorEnRed(b, 12, r.eax);
    ValorEnRed(b, 16, r.ebx);
    ValorEnRed(b, 20, r.ecx);
    ValorEnRed(b, 24, r.edx);
    ValorEnRed(b, 28, r.si);
    ValorEnRed(b, 32, r.di);
    assert b[4..][8..] == b[12..] && b[4..][12..] == b[16..] && b[4..][16..] == b[20..] && b[4..][20..] == b[24..]
      && b[4..][24..] == b[28..] && b[4..][28..] == b[32..];
    assert b[4..][4] == b[8] && b[4..][5] == b[9] && b[4..][6] == b[10] && b[4..][7] == b[11];
  }

  /** A context is read from a message exactly when the message has that layout. */
  lemma LeidoEnRed(b: seq<Byte>, c: Contexto)
    ensures Deserializado(b) == Some(c) <==> ContextoEnRed(b, c) && |b| >= 40 + 16 * |c.segmentos|
  {
    hide Valor, EnRed, RegistrosDe, RegistrosEnRed, SegmentosDe, SegmentoEnRed;
    if |b| >= CABECERA {
      assert b[0..] == b;
      ValorEnRed(b, 0, c.pid);
      RegistrosDeEnRed(b, c.registros);
      Cuenta(b, c);
      if |b| >= CABECERA + POR_SEGMENTO * |c.segmentos| {
        SegmentosDeEnRed(b, CABECERA, c.segmentos);
      }
    }
  }

  lemma Cuenta(b: seq<Byte>, c: Contexto)
    requires |b| >= CABECERA
    ensures Anunciados(b) == |c.segmentos| <==> EnRed(b, 36, |c.segmentos|)
  {
    if |c.segmentos| <= U32_MAX {
      ValorEnRed(b, 36, |c.segmentos|);
    }
  }

  /** What goes out has that layout, and nothing else of that size has. */
  lemma SerializadoEnRed(c: Contexto, b: seq<Byte>)
    requires Transmisible(|c.segmentos|) && |b| == 40 + 16 * |c.segmentos|
    ensures b == Serializado(c) <==> ContextoEnRed(b, c)
  {
    hide ContextoEnRed, Deserializado, Serializado;
    LeidoEnRed(b, c);
    IdaYVueltaContexto(c, []);
    assert Serializado(c) + [] == Serializado(c);
    if ContextoEnRed(b, c) {
      VueltaEIda(b, c);
    }
  }

  // ---------------------------------------------------------------- writing and reading through a moving pointer

  method EscribirPalabra(buf: array<Byte>, p: nat, v: U32) returns (q: nat)
    requires p + 4 <= buf.Length
    modifies buf
    ensures q == p + 4 && buf[..q] == old(buf[..p]) + Palabra(v)
  {
    ghost var antes := buf[..p];
    var n := Palabra(v);
    buf[p], buf[p + 1], buf[p + 2], buf[p + 3] := n[0], n[1], n[2], n[3];
    q := p + 4;
    assert buf[..p] == antes;
    assert buf[..q] == buf[..p] + [buf[p], buf[p + 1], buf[p + 2], buf[p + 3]];
  }

  method EscribirByte(buf: array<Byte>, p: nat, v: Byte) returns (q: nat)
    requires p < buf.Length
    modifies buf
    ensures q == p + 1 && buf[..q] == old(buf[..p]) + [v]
  {
    buf[p] := v;
    q := p + 1;
  }

  lemma {:induction false} SegmentosAlFinal(segs: seq<Segmento>, s: Segmento)
    ensures SegmentosABytes(segs + [s]) == SegmentosABytes(segs) + SegmentoABytes(s)
  {
    if segs == [] {
      assert [s][1..] == [];
      assert SegmentosABytes([s]) == SegmentoABytes(s) + SegmentosABytes([s][1..]);
    } else {
      assert (segs + [s])[1..] == segs[1..] + [s];
      SegmentosAlFinal(segs[1..], s);
    }
  }

  /** Two words in a row. */
  method EscribirDos(buf: array<Byte>, inicio: nat, v: U32, w: U32) returns (p: nat)
    requires inicio + 8 <= buf.Length
    modifies buf
    ensures p == inicio + 8 && buf[..p] == old(buf[..inicio]) + (Palabra(v) + Palabra(w))
  {
    hide Palabra;
    ghost var b := buf[..inicio];
    p := EscribirPalabra(buf, inicio, v);
    p := EscribirPalabra(buf, p, w);
    assert (b + Palabra(v)) + Palabra(w) == b + (Palabra(v) + Palabra(w));
  }

  /** The program counter and the registers of one byte. */
  method EscribirCortos(buf: array<Byte>, inicio: nat, r: Registros) returns (p: nat)
    requires inicio + 8 <= buf.Length
    modifies buf
    ensures p == inicio + 8 && buf[..p] == old(buf[..inicio]) + (Palabra(r.pc) + [r.ax, r.bx, r.cx, r.dx])
  {
    hide Palabra;
    ghost var b := buf[..inicio];
    p := EscribirPalabra(buf, inicio, r.pc);
    p := EscribirByte(buf, p, r.ax);
    p := EscribirByte(buf, p, r.bx);
    p := EscribirByte(buf, p, r.cx);
    p := EscribirByte(buf, p, r.dx);
    assert buf[..p] == b + (Palabra(r.pc) + [r.ax, r.bx, r.cx, r.dx]);
  }

  method EscribirRegistros(buf: array<Byte>, inicio: nat, r: Registros) returns (p: nat)
    requires inicio + 32 <= buf.Length
    modifies buf
    ensures p == inicio + 32 && buf[..p] == old(buf[..inicio]) + RegistrosABytes(r)
  {
    hide Palabra;
    ghost var b := buf[..inicio];
    ghost var x, y := Palabra(r.pc) + [r.ax, r.bx, r.cx, r.dx], Palabra(r.eax) + Palabra(r.ebx);
    ghost var z, w := Palabra(r.ecx) + Palabra(r.edx), Palabra(r.si) + Palabra(r.di);
    p := EscribirCortos(buf, inicio, r);
    p := EscribirDos(buf, p, r.eax, r.ebx);
    p := EscribirDos(buf, p, r.ecx, r.edx);
    p := EscribirDos(buf, p, r.si, r.di);
    assert buf[..p] == b + x + y + z + w;
    assert b + x + y + z + w == b + (x + y + z + w);
    assert x + y + z + w == RegistrosABytes(r);
  }

  method EscribirSegmento(buf: array<Byte>, inicio: nat, s: Segmento) returns (p: nat)
    requires inicio + POR_SEGMENTO <= buf.Length
    modifies buf
    ensures p == inicio + POR_SEGMENTO && buf[..p] == old(buf[..inicio]) + SegmentoABytes(s)
  {
    ghost var b := buf[..inicio];
    p := EscribirPalabra(buf, inicio, s.id);
    p := EscribirPalabra(buf, p, s.stick);
    p := EscribirPalabra(buf, p, s.base);
    p := EscribirPalabra(buf, p, s.limite);
    assert buf[..p] == b + SegmentoABytes(s);
  }

  /** pid, registers and count. */
  method EscribirCabecera(buf: array<Byte>, c: Contexto) returns (p: nat)
    requires buf.Length >= CABECERA && Transmisible(|c.segmentos|)
    modifies buf
    ensures p == CABECERA && buf[..p] == Palabra(c.pid) + RegistrosABytes(c.registros) + Palabra(|c.segmentos|)
  {
    hide Palabra, RegistrosABytes;
    p := EscribirPalabra(buf, 0, c.pid);
    assert buf[..p] == Palabra(c.pid);
    p := EscribirRegistros(buf, p, c.registros);
    p := EscribirPalabra(buf, p, |c.segmentos|);
  }

  method SerializarContexto(c: Contexto) returns (buf: array<Byte>)
    requires Transmisible(|c.segmentos|)
    ensures fresh(buf) && buf[..] == Serializado(c)
    ensures buf.Length == 40 + 16 * |c.segmentos| && ContextoEnRed(buf[..], c)
  {
    hide Palabra, RegistrosABytes, SegmentoABytes, ContextoEnRed;
    var cant := |c.segmentos|;
    buf := new Byte[CABECERA + cant * POR_SEGMENTO](_ => 0);
    var p := EscribirCabecera(buf, c);
    ghost var cabecera := buf[..p];
    var i := 0;
    assert c.segmentos[..0] == [] && cabecera + [] == cabecera;
    while i < cant
      invariant 0 <= i <= cant && p == CABECERA + POR_SEGMENTO * i
      invariant buf[..p] == cabecera + SegmentosABytes(c.segmentos[..i])
    {
      ghost var hechos := SegmentosABytes(c.segmentos[..i]);
      p := EscribirSegmento(buf, p, c.segmentos[i]);
      SegmentosAlFinal(c.segmentos[..i], c.segmentos[i]);
      assert c.segmentos[..i + 1] == c.segmentos[..i] + [c.segmentos[i]];
      assert (cabecera + hechos) + SegmentoABytes(c.segmentos[i]) == cabecera + (hechos + SegmentoABytes(c.segmentos[i]));
      i := i + 1;
    }
    assert c.segmentos[..i] == c.segmentos;
    assert buf[..] == buf[..p];
    SerializadoEnRed(c, buf[..]);
  }

  lemma CeroSegmentos(b: seq<Byte>)
    ensures SegmentosDe(b, 0) == []
  {
  }

  lemma SegmentosDePrefijo(b: seq<Byte>, i: nat, cant: nat)
    requires i < cant && |b| >= POR_SEGMENTO * cant
    ensures SegmentosDe(b, i + 1) == SegmentosDe(b, i) + [SegmentoDe(b[POR_SEGMENTO * i..])]
    decreases i
  {
    hide SegmentoDe;
    if i > 0 {
      SegmentosDePrefijo(b[POR_SEGMENTO..], i - 1, cant - 1);
      assert b[POR_SEGMENTO..][POR_SEGMENTO * (i - 1)..] == b[POR_SEGMENTO * i..];
    } else {
      assert b[0..] == b;
    }
  }

  /** The size the code computes for an announced count, in 32 bits. */
  function Esperado(cant: U32): (n: U32)
    ensures Transmisible(cant) ==> n == CABECERA + POR_SEGMENTO * cant
  {
    (CABECERA + cant * POR_SEGMENTO % 0x1_0000_0000) % 0x1_0000_0000
  }

  /** A message is read, refused as too short, or accepted although a segment it announces is not there. */
  datatype Lectura = Entero(contexto: Contexto) | Corto | Incompleto

  /** The message has the 32-bit size but not the announced one. */
  predicate SinBytes(b: seq<Byte>) {
    |b| >= CABECERA && Esperado(Anunciados(b)) <= |b| < CABECERA + POR_SEGMENTO * Anunciados(b)
  }

  method DeserializarContexto(b: seq<Byte>) returns (r: Lectura)
    ensures r == if SinBytes(b) then Incompleto else match Deserializado(b) case Some(c) => Entero(c) case None => Corto
    ensures r == Incompleto ==> !Transmisible(Anunciados(b))
    ensures r.Entero? ==> ContextoEnRed(b, r.contexto)
  {
    hide RegistrosDe, SegmentoDe, SegmentosDe, Valor, Esperado, ContextoEnRed;
    if |b| < CABECERA {
      return Corto;
    }
    var pid := Valor(b);
    var registros := RegistrosDe(b[4..]);
    var cant := Valor(b[36..]);
    if |b| < Esperado(cant) {
      return Corto;
    }
    var segs: seq<Segmento> := [];
    CeroSegmentos(b[CABECERA..]);
    var p := CABECERA;
    var i := 0;
    while i < cant
      invariant 0 <= i <= cant && p == CABECERA + POR_SEGMENTO * i <= |b|
      invariant |b| >= CABECERA + POR_SEGMENTO * cant ==> segs == SegmentosDe(b[CABECERA..], i)
    {
      if p + POR_SEGMENTO > |b| {
        return Incompleto;
      }
      if |b| >= CABECERA + POR_SEGMENTO * cant {
        SegmentosDePrefijo(b[CABECERA..], i, cant);
        assert b[CABECERA..][POR_SEGMENTO * i..] == b[p..];
      }
      segs := segs + [SegmentoDe(b[p..])];
      p := p + POR_SEGMENTO;
      i := i + 1;
    }
    r := Entero(Contexto(pid, registros, segs));
    LeidoEnRed(b, r.contexto);
  }

  // ---------------------------------------------------------------- messages

  datatype Mensaje = Mensaje(op: U32, payload: seq<Byte>)

  predicate Enviable(m: Mensaje) {
    |m.payload| <= U32_MAX
  }

  function Trama(m: Mensaje): seq<Byte>
    requires Enviable(m)
  {
    Palabra(m.op) + Palabra(|m.payload|) + m.payload
  }

  /** The first message of a stream and what follows it, if it is all there. */
  function Primera(b: seq<Byte>): Option<(Mensaje, seq<Byte>)> {
    if |b| < 8 || |b| < 8 + Valor(b[4..]) then None
    else Some((Mensaje(Valor(b), b[8..8 + Valor(b[4..])]), b[8 + Valor(b[4..])..]))
  }

  function Tramas(ms: seq<Mensaje>): seq<Byte>
    requires forall m :: m in ms ==> Enviable(m)
  {
    if ms == [] then [] else Trama(ms[0]) + Tramas(ms[1..])
  }

  /** Code, length and payload, in that order. */
  predicate MensajeEnRed(b: seq<Byte>, m: Mensaje) {
    EnRed(b, 0, m.op) && EnRed(b, 4, |m.payload|) && 8 + |m.payload| <= |b| && b[8..8 + |m.payload|] == m.payload
  }

  lemma PrimeraEnRed(b: seq<Byte>, m: Mensaje, resto: seq<Byte>)
    ensures Primera(b) == Some((m, resto)) <==> MensajeEnRed(b, m) && resto == b[8 + |m.payload|..]
  {
    hide EnRed, Valor;
    if |b| >= 8 {
      assert b[0..] == b;
      ValorEnRed(b, 0, m.op);
      if |m.payload| <= U32_MAX {
        ValorEnRed(b, 4, |m.payload|);
      } else {
        LargoCabe(b, |m.payload|);
      }
    }
  }

  lemma LargoCabe(b: seq<Byte>, n: int)
    requires n > U32_MAX
    ensures !EnRed(b, 4, n)
  {
  }

  lemma PrimeraEs(m: Mensaje, resto: seq<Byte>)
    requires Enviable(m)
    ensures Primera(Trama(m) + resto) == Some((m, resto))
  {
    var b := Trama(m) + resto;
    assert b == Palabra(m.op) + (Palabra(|m.payload|) + (m.payload + resto));
    ValorAlFrente(m.op, Palabra(|m.payload|) + (m.payload + resto));
    ValorAlFrente(|m.payload|, m.payload + resto);
    assert b[4..][4..] == b[8..];
  }

  /** All the messages of a stream, up to the first that is not all there. */
  function Mensajes(b: seq<Byte>): seq<Mensaje>
    decreases |b|
  {
    match Primera(b)
    case None => []
    case Some((m, resto)) => [m] + Mensajes(resto)
  }

  lemma {:induction false} TramasAlFinal(ms: seq<Mensaje>, m: Mensaje)
    requires Enviable(m) && forall x :: x in ms ==> Enviable(x)
    ensures Tramas(ms + [m]) == Tramas(ms) + Trama(m)
  {
    if ms == [] {
      assert [m][1..] == [];
      assert Tramas([m]) == Trama(m) + Tramas([m][1..]);
    } else {
      assert (ms + [m])[1..] == ms[1..] + [m];
      TramasAlFinal(ms[1..], m);
    }
  }

  /** Messages sent one after the other are received whole, in order, and none else. */
  lemma {:induction false} EnOrden(ms: seq<Mensaje>)
    requires forall m :: m in ms ==> Enviable(m)
    ensures Mensajes(Tramas(ms)) == ms
  {
    if ms != [] {
      PrimeraEs(ms[0], Tramas(ms[1..]));
      EnOrden(ms[1..]);
    }
  }

  // ---------------------------------------------------------------- a stream that moves bytes in pieces

  /** One direction of a connection. `trozos` is what the next calls will move; a number that is not positive is an error. */
  class Corriente {
    var bytes: seq<Byte>
    var trozos: seq<int>

    constructor (trozos: seq<int>)
      ensures bytes == [] && this.trozos == trozos
    {
      bytes := [];
      this.trozos := trozos;
    }

    /** send: as much as it likes, at least one byte, or an error. */
    method Send(datos: seq<Byte>) returns (n: int)
      requires datos != []
      modifies this
      ensures n <= |datos|
      ensures n > 0 ==> bytes == old(bytes) + datos[..n]
      ensures n <= 0 ==> bytes == old(bytes) && old(trozos) != [] && old(trozos)[0] <= 0
      ensures trozos == if old(trozos) == [] then [] else old(trozos)[1..]
    {
      var t := if trozos == [] then |datos| else trozos[0];
      trozos := if trozos == [] then [] else trozos[1..];
      if t <= 0 {
        return -1;
      }
      n := if t < |datos| then t else |datos|;
      bytes := bytes + datos[..n];
    }

    /** recv: as much as it likes of what has arrived, at least one byte; an error or the end of the stream otherwise. */
    method Recv(max: nat) returns (n: int, datos: seq<Byte>)
      requires max > 0
      modifies this
      ensures n > 0 ==> |datos| == n <= max && old(bytes) == datos + bytes
      ensures n <= 0 ==> bytes == old(bytes) && (old(bytes) == [] || (old(trozos) != [] && old(trozos)[0] <= 0))
      ensures trozos == if old(trozos) == [] then [] else old(trozos)[1..]
    {
      var t := if trozos == [] then max else trozos[0];
      trozos := if trozos == [] then [] else trozos[1..];
      if t <= 0 || bytes == [] {
        return -1, [];
      }
      n := if t < max then t else max;
      n := if n < |bytes| then n else |bytes|;
      datos := bytes[..n];
      bytes := bytes[n..];
    }

    predicate SinErrores()
      reads this
    {
      forall i :: 0 <= i < |trozos| ==> trozos[i] > 0
    }

    /** enviar_bytes: all of the buffer, however it is cut, unless the socket fails. */
    method EnviarBytes(buffer: seq<Byte>) returns (ok: bool)
      modifies this
      ensures ok ==> bytes == old(bytes) + buffer
      ensures !ok ==> exists k :: 0 <= k < |buffer| && bytes == old(bytes) + buffer[..k]
      ensures old(SinErrores()) ==> ok && SinErrores()
    {
      var enviado := 0;
      while enviado < |buffer|
        invariant 0 <= enviado <= |buffer| && bytes == old(bytes) + buffer[..enviado]
        invariant old(SinErrores()) ==> SinErrores()
      {
        ghost var antes := trozos;
        var n := Send(buffer[enviado..]);
        if n <= 0 {
          return false;
        }
        assert buffer[..enviado + n] == buffer[..enviado] + buffer[enviado..][..n];
        enviado := enviado + n;
      }
      assert buffer[..enviado] == buffer;
      ok := true;
    }

    /** recibir_bytes: exactly that many bytes, however they come, unless the socket fails or the stream ends. */
    method RecibirBytes(cuantos: nat) returns (ok: bool, datos: seq<Byte>)
      modifies this
      ensures ok ==> |datos| == cuantos && old(bytes) == datos + bytes
      ensures old(SinErrores()) ==> SinErrores() && (ok <==> |old(bytes)| >= cuantos)
    {
      datos := [];
      while |datos| < cuantos
        invariant |datos| <= cuantos && old(bytes) == datos + bytes
        invariant old(SinErrores()) ==> SinErrores()
        decreases cuantos - |datos|
      {
        var n, trozo := Recv(cuantos - |datos|);
        if n <= 0 {
          return false, datos;
        }
        datos := datos + trozo;
      }
      ok := true;
    }

    /** enviar_mensaje. A failure in the middle leaves part of a message behind. */
    method EnviarMensaje(m: Mensaje) returns (ok: bool)
      requires Enviable(m)
      modifies this
      ensures ok ==> bytes == old(bytes) + Trama(m)
      ensures ok ==> MensajeEnRed(bytes[|old(bytes)|..], m) && |bytes| == |old(bytes)| + 8 + |m.payload|
      ensures old(SinErrores()) ==> ok && SinErrores()
    {
      hide Palabra, MensajeEnRed;
      ok := EnviarBytes(Palabra(m.op));
      if ok {
        ok := EnviarBytes(Palabra(|m.payload|));
      }
      if ok && |m.payload| > 0 {
        ok := EnviarBytes(m.payload);
      }
      if ok {
        assert bytes == old(bytes) + Trama(m);
        assert bytes[|old(bytes)|..] == Trama(m) == Trama(m) + [];
        PrimeraEs(m, []);
        PrimeraEnRed(Trama(m), m, []);
      }
    }

    /** recibir_mensaje: the first message of the stream, whatever the cuts; nothing if it never arrives whole. */
    method RecibirMensaje() returns (r: Option<Mensaje>)
      modifies this
      ensures r.Some? ==> Primera(old(bytes)) == Some((r.value, bytes))
      ensures r.Some? ==> MensajeEnRed(old(bytes), r.value) && bytes == old(bytes)[8 + |r.value.payload|..]
      ensures old(SinErrores()) ==> SinErrores() && (r.Some? <==> Primera(old(bytes)).Some?)
    {
      ghost var b := bytes;
      var ok, op := RecibirBytes(4);
      if !ok {
        return None;
      }
      var size;
      ok, size := RecibirBytes(4);
      if !ok {
        return None;
      }
      CabeceraLeida(b, op, size, bytes);
      var payload := [];
      if Valor(size) > 0 {
        ok, payload := RecibirBytes(Valor(size));
        if !ok {
          return None;
        }
      }
      assert b == op + size + payload + bytes;
      assert b[8..8 + Valor(size)] == payload && b[8 + Valor(size)..] == bytes;
      r := Some(Mensaje(Valor(op), payload));
    }
  }

  lemma CabeceraLeida(b: seq<Byte>, op: seq<Byte>, size: seq<Byte>, resto: seq<Byte>)
    requires |op| == 4 && |size| == 4 && b == op + (size + resto)
    ensures Valor(b) == Valor(op) && Valor(b[4..]) == Valor(size) && b[8..] == resto && b[4..] == size + resto
  {
    assert b[4..] == size + resto;
    assert b[8..] == b[4..][4..];
  }

  /** A whole conversation: what is sent with any cuts is received with any cuts, whole and in order. */
  method Conversar(c: Corriente, ms: seq<Mensaje>) returns (recibidos: seq<Mensaje>)
    requires c.bytes == [] && c.SinErrores() && forall m :: m in ms ==> Enviable(m)
    modifies c
    ensures recibidos == ms && c.bytes == []
  {
    var i := 0;
    while i < |ms|
      invariant 0 <= i <= |ms| && c.SinErrores() && c.bytes == Tramas(ms[..i])
    {
      var ok := c.EnviarMensaje(ms[i]);
      TramasAlFinal(ms[..i], ms[i]);
      assert ms[..i + 1] == ms[..i] + [ms[i]];
      i := i + 1;
    }
    assert ms[..i] == ms;
    recibidos := [];
    i := 0;
    assert ms[0..] == ms;
    while i < |ms|
      invariant 0 <= i <= |ms| && c.SinErrores() && c.bytes == Tramas(ms[i..]) && recibidos == ms[..i]
    {
      PrimeraEs(ms[i], Tramas(ms[i..][1..]));
      assert ms[i..][1..] == ms[i + 1..] && ms[i..][0] == ms[i];
      var m := c.RecibirMensaje();
      recibidos := recibidos + [m.value];
      i := i + 1;
    }
    assert ms[i..] == [] && ms[..i] == ms;
  }
}
