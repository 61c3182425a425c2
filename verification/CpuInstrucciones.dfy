/** The CPU's registers by name, and what each instruction does to registers and memory. */
module CpuInstrucciones {
  import opened Basics
  import opened Contexto

  const DOS_A_LA_32: int := 0x1_0000_0000
  const ULONG_MAX: int := 0xFFFF_FFFF_FFFF_FFFF

  // ---------------------------------------------------------------- numbers in instructions

  predicate EsDigito(c: char) {
    '0' <= c <= '9'
  }

  predicate EsBlanco(c: char) {
    c == ' ' || '\t' <= c <= '\r'
  }

  function SaltarBlancos(s: string): string {
    if s != [] && EsBlanco(s[0]) then SaltarBlancos(s[1..]) else s
  }

  /** The value of the leading digits, after `v`. */
  function Decimal(s: string, v: nat): nat {
    if s == [] || !EsDigito(s[0]) then v else Decimal(s[1..], 10 * v + (s[0] - '0') as nat)
  }

  /** strtoul in base 10 on a 64-bit unsigned long, cast to 32 bits. */
  function ParsearUint32(texto: string): U32 {
    var s := SaltarBlancos(texto);
    var negativo := s != [] && s[0] == '-';
    var v := Decimal(if s != [] && (s[0] == '-' || s[0] == '+') then s[1..] else s, 0);
    var u := if v > ULONG_MAX then ULONG_MAX else if negativo then (ULONG_MAX + 1 - v) % (ULONG_MAX + 1) else v;
    u % DOS_A_LA_32
  }

  /** The usual decimal notation. */
  function Texto(n: nat): (s: string)
    ensures s != [] && EsDigito(s[0])
  {
    if n < 10 then [('0' as int + n) as char] else Texto(n / 10) + [('0' as int + n % 10) as char]
  }

  lemma {:induction false} DecimalAppend(s: string, c: char, v: nat)
    requires (forall i :: 0 <= i < |s| ==> EsDigito(s[i])) && EsDigito(c)
    ensures Decimal(s + [c], v) == 10 * Decimal(s, v) + (c - '0') as nat
  {
    if s == [] {
      assert [c][1..] == [];
    } else {
      assert (s + [c])[1..] == s[1..] + [c];
      DecimalAppend(s[1..], c, 10 * v + (s[0] - '0') as nat);
    }
  }

  lemma {:induction false} DecimalTexto(n: nat)
    ensures (forall i :: 0 <= i < |Texto(n)| ==> EsDigito(Texto(n)[i])) && Decimal(Texto(n), 0) == n
  {
    if n < 10 {
      assert Texto(n)[1..] == [];
    } else {
      DecimalTexto(n / 10);
      DecimalAppend(Texto(n / 10), ('0' as int + n % 10) as char, 0);
    }
  }

  /** The decimal notation of a 32-bit number is read back as that number. */
  lemma ParsearTexto(n: U32)
    ensures ParsearUint32(Texto(n)) == n
  {
    DecimalTexto(n);
    assert SaltarBlancos(Texto(n)) == Texto(n);
  }

  lemma {:induction false} DecimalResto(s: string, resto: string, v: nat)
    requires (forall i :: 0 <= i < |s| ==> EsDigito(s[i])) && (resto == [] || !EsDigito(resto[0]))
    ensures Decimal(s + resto, v) == Decimal(s, v)
  {
    if s == [] {
      assert s + resto == resto;
    } else {
      assert (s + resto)[1..] == s[1..] + resto;
      DecimalResto(s[1..], resto, 10 * v + (s[0] - '0') as nat);
    }
  }

  /** What strtoul makes of a number of any size with any sign: it saturates, a minus sign negates, and what follows the digits is ignored. */
  lemma ParsearConSigno(signo: string, n: nat, resto: string)
    requires (signo == "" || signo == "+" || signo == "-") && (resto == [] || !EsDigito(resto[0]))
    ensures ParsearUint32(signo + Texto(n) + resto)
         == if n > 0xFFFF_FFFF_FFFF_FFFF then 0xFFFF_FFFF else if signo == "-" then (0 - n) % 0x1_0000_0000 else n % 0x1_0000_0000
  {
    var s := signo + Texto(n) + resto;
    DecimalTexto(n);
    DecimalResto(Texto(n), resto, 0);
    assert s[0] == if signo == "" then Texto(n)[0] else signo[0];
    assert SaltarBlancos(s) == s;
    assert signo != "" ==> s[1..] == Texto(n) + resto;
    assert signo == "" ==> s == Texto(n) + resto;
    if signo == "-" && n <= ULONG_MAX {
      Negado(n);
    }
  }

  lemma Negado(n: nat)
    requires n <= ULONG_MAX
    ensures (ULONG_MAX + 1 - n) % (ULONG_MAX + 1) % DOS_A_LA_32 == (0 - n) % DOS_A_LA_32
  {
    if n > 0 {
      assert (ULONG_MAX + 1 - n) % (ULONG_MAX + 1) == ULONG_MAX + 1 - n;
      Congruentes(ULONG_MAX + 1 - n, 0 - n, DOS_A_LA_32);
    }
  }

  lemma Congruentes(x: int, y: int, k: int)
    requires x == y + k * DOS_A_LA_32
    ensures x % DOS_A_LA_32 == y % DOS_A_LA_32
  {
    var a, b := x / DOS_A_LA_32, y / DOS_A_LA_32;
    assert x == DOS_A_LA_32 * a + x % DOS_A_LA_32 && y == DOS_A_LA_32 * b + y % DOS_A_LA_32;
  }

  /** White space before a number is skipped, and what is no number counts as 0. */
  lemma ParsearSinNumero(c: char, s: string)
    ensures EsBlanco(c) ==> ParsearUint32([c] + s) == ParsearUint32(s)
    ensures !EsBlanco(c) && !EsDigito(c) && c != '-' && c != '+' ==> ParsearUint32([c] + s) == 0
    ensures ParsearUint32("") == 0
  {
    assert ([c] + s)[1..] == s;
  }

  // ---------------------------------------------------------------- registers

  function TamanioRegistro(nombre: string): Option<U32> {
    if nombre in ["AX", "BX", "CX", "DX"] then Some(1)
    else if nombre in ["EAX", "EBX", "ECX", "EDX", "SI", "DI", "PC"] then Some(4)
    else None
  }

  function LeerRegistro(r: Registros, nombre: string): Option<U32> {
    if nombre == "AX" then Some(r.ax)
    else if nombre == "BX" then Some(r.bx)
    else if nombre == "CX" then Some(r.cx)
    else if nombre == "DX" then Some(r.dx)
    else if nombre == "EAX" then Some(r.eax)
    else if nombre == "EBX" then Some(r.ebx)
    else if nombre == "ECX" then Some(r.ecx)
    else if nombre == "EDX" then Some(r.edx)
    else if nombre == "SI" then Some(r.si)
    else if nombre == "DI" then Some(r.di)
    else if nombre == "PC" then Some(r.pc)
    else None
  }

  /** 8-bit registers keep the low byte. */
  function EscribirRegistro(r: Registros, nombre: string, v: U32): Option<Registros> {
    if nombre == "AX" then Some(r.(ax := v % 256))
    else if nombre == "BX" then Some(r.(bx := v % 256))
    else if nombre == "CX" then Some(r.(cx := v % 256))
    else if nombre == "DX" then Some(r.(dx := v % 256))
    else if nombre == "EAX" then Some(r.(eax := v))
    else if nombre == "EBX" then Some(r.(ebx := v))
    else if nombre == "ECX" then Some(r.(ecx := v))
    else if nombre == "EDX" then Some(r.(edx := v))
    else if nombre == "SI" then Some(r.(si := v))
    else if nombre == "DI" then Some(r.(di := v))
    else if nombre == "PC" then Some(r.(pc := v))
    else None
  }

  function Modulo(nombre: string): int {
    if TamanioRegistro(nombre) == Some(1) then 256 else DOS_A_LA_32
  }

  /** Exactly the registers with a size can be written, and a write is seen by that register alone, cut to its width. */
  lemma LeerEscrito(r: Registros, n: string, m: string, v: U32)
    ensures EscribirRegistro(r, n, v).Some? <==> TamanioRegistro(n).Some?
    ensures LeerRegistro(r, n).Some? <==> TamanioRegistro(n).Some?
    ensures EscribirRegistro(r, n, v).Some? ==>
      LeerRegistro(EscribirRegistro(r, n, v).value, m) == if m == n then Some(v % Modulo(n)) else LeerRegistro(r, m)
  {
  }

  // ---------------------------------------------------------------- instructions

  datatype Opcode =
    | NOOP | SET | SUM | SUB | JNZ
    | MOV_IN | MOV_OUT | COPY_MEM
    | MUTEX_CREATE | MUTEX_LOCK | MUTEX_UNLOCK | SLEEP | MEM_ALLOC | MEM_FREE | INIT_PROC | STDOUT | STDIN | EXIT
    | UNKNOWN

  datatype Instruccion = Instruccion(opcode: Opcode, parametros: seq<string>)

  datatype ResultadoCpu = CpuOk | CpuError | CpuSegFault

  predicate EsMemoria(o: Opcode) {
    o == MOV_IN || o == MOV_OUT || o == COPY_MEM
  }

  predicate EsBasica(o: Opcode) {
    o == NOOP || o == SET || o == SUM || o == SUB || o == JNZ
  }

  predicate EsSyscallOExit(o: Opcode) {
    o != UNKNOWN && !EsMemoria(o) && !EsBasica(o)
  }

  function AvanzarPc(r: Registros): Registros {
    r.(pc := (r.pc + 1) % DOS_A_LA_32)
  }

  /** An instruction that wrote PC has already said what comes next. */
  function AvanzarSiCorresponde(r: Registros, destino: string): Registros {
    if destino != "PC" then AvanzarPc(r) else r
  }

  /** A write followed by the PC rule; None for a name that is no register. */
  function Asignar(r: Registros, destino: string, v: U32): Option<Registros> {
    match EscribirRegistro(r, destino, v)
    case None => None
    case Some(q) => Some(AvanzarSiCorresponde(q, destino))
  }

  function Operar(r: Registros, p: seq<string>, resta: bool): Option<Registros> {
    if |p| != 2 then None
    else
      var destino, origen := LeerRegistro(r, p[0]), LeerRegistro(r, p[1]);
      if destino.None? || origen.None? then None
      else if resta then Asignar(r, p[0], (destino.value - origen.value) % DOS_A_LA_32)
      else Asignar(r, p[0], (destino.value + origen.value) % DOS_A_LA_32)
  }

  /** The registers after a basic instruction, or None for an error. */
  function Basica(r: Registros, ins: Instruccion): Option<Registros> {
    var p := ins.parametros;
    match ins.opcode
    case NOOP => Some(AvanzarPc(r))
    case SET => if |p| != 2 then None else Asignar(r, p[0], ParsearUint32(p[1]))
    case SUM => Operar(r, p, false)
    case SUB => Operar(r, p, true)
    case JNZ =>
      if |p| != 2 || LeerRegistro(r, p[0]).None? then None
      else if LeerRegistro(r, p[0]).value != 0 then Some(r.(pc := ParsearUint32(p[1])))
      else Some(AvanzarPc(r))
    case _ => None
  }

  /** The registers `q` after an instruction on `r`: `n` holds `v`, the program counter is `pc` unless it is `n`, the others are as they were. */
  ghost predicate Queda(r: Registros, q: Registros, n: string, v: int, pc: int) {
    forall m: string :: LeerRegistro(q, m) == if m == n then Some(v) else if m == "PC" then Some(pc) else LeerRegistro(r, m)
  }

  predicate EsRegistro(n: string) {
    n in ["AX", "BX", "CX", "DX", "EAX", "EBX", "ECX", "EDX", "SI", "DI", "PC"]
  }

  /** The parameters a register instruction must come with. */
  predicate BienFormada(ins: Instruccion) {
    var p := ins.parametros;
    match ins.opcode
    case NOOP => true
    case SET => |p| == 2 && EsRegistro(p[0])
    case SUM => |p| == 2 && EsRegistro(p[0]) && EsRegistro(p[1])
    case SUB => |p| == 2 && EsRegistro(p[0]) && EsRegistro(p[1])
    case JNZ => |p| == 2 && EsRegistro(p[0])
    case _ => false
  }

  /** What a register instruction means, register by register. */
  ghost predicate Significa(r: Registros, ins: Instruccion, q: Registros) {
    var p, sigue := ins.parametros, (r.pc + 1) % 0x1_0000_0000;
    BienFormada(ins) &&
    match ins.opcode
    case NOOP => Queda(r, q, "PC", sigue, sigue)
    case SET => Queda(r, q, p[0], ParsearUint32(p[1]) % Ancho(p[0]), sigue)
    case SUM => Queda(r, q, p[0], (Vale(r, p[0]) + Vale(r, p[1])) % Ancho(p[0]), sigue)
    case SUB => Queda(r, q, p[0], (Vale(r, p[0]) - Vale(r, p[1])) % Ancho(p[0]), sigue)
    case JNZ =>
      var pc := if Vale(r, p[0]) != 0 then ParsearUint32(p[1]) else sigue;
      Queda(r, q, "PC", pc, pc)
    case _ => false
  }

  /** How many values a register of that name has. */
  function Ancho(n: string): (a: int)
    ensures a > 0
  {
    if n in ["AX", "BX", "CX", "DX"] then 256 else 0x1_0000_0000
  }

  function Vale(r: Registros, n: string): int {
    match LeerRegistro(r, n)
    case None => 0
    case Some(v) => v
  }

  /** The values by name are all there is in the registers. */
  lemma PorNombre(q: Registros, w: Registros)
    requires forall m: string :: LeerRegistro(q, m) == LeerRegistro(w, m)
    ensures q == w
  {
    assert LeerRegistro(q, "AX") == LeerRegistro(w, "AX") && LeerRegistro(q, "BX") == LeerRegistro(w, "BX");
    assert LeerRegistro(q, "CX") == LeerRegistro(w, "CX") && LeerRegistro(q, "DX") == LeerRegistro(w, "DX");
    assert LeerRegistro(q, "EAX") == LeerRegistro(w, "EAX") && LeerRegistro(q, "EBX") == LeerRegistro(w, "EBX");
    assert LeerRegistro(q, "ECX") == LeerRegistro(w, "ECX") && LeerRegistro(q, "EDX") == LeerRegistro(w, "EDX");
    assert LeerRegistro(q, "SI") == LeerRegistro(w, "SI") && LeerRegistro(q, "DI") == LeerRegistro(w, "DI") && LeerRegistro(q, "PC") == LeerRegistro(w, "PC");
  }

  lemma QuedaUno(r: Registros, q: Registros, w: Registros, n: string, v: int, pc: int)
    requires Queda(r, q, n, v, pc) && Queda(r, w, n, v, pc)
    ensures q == w
  {
    hide LeerRegistro;
    PorNombre(q, w);
  }

  /** Writing a register and moving on, unless it was the program counter. */
  lemma AsignarQueda(r: Registros, n: string, v: U32)
    ensures Asignar(r, n, v).Some? <==> EsRegistro(n)
    ensures EsRegistro(n) ==> Queda(r, Asignar(r, n, v).value, n, v % Ancho(n), (r.pc + 1) % 0x1_0000_0000)
  {
    hide LeerRegistro, EscribirRegistro, AvanzarPc;
    LeerEscrito(r, n, n, v);
    if EsRegistro(n) {
      var q := EscribirRegistro(r, n, v).value;
      ContadorEs(r);
      ContadorEs(q);
      LeerEscrito(r, n, "PC", v);
      forall m: string
        ensures LeerRegistro(q, m) == if m == n then Some(v % Ancho(n)) else LeerRegistro(r, m)
        ensures LeerRegistro(AvanzarPc(q), m) == if m == "PC" then Some((q.pc + 1) % DOS_A_LA_32) else LeerRegistro(q, m)
      {
        LeerEscrito(r, n, m, v);
        LeerAvanzado(q, m);
      }
    }
  }

  lemma ContadorEs(r: Registros)
    ensures LeerRegistro(r, "PC") == Some(r.pc)
  {
  }

  lemma LeerAvanzado(q: Registros, m: string)
    ensures LeerRegistro(AvanzarPc(q), m) == if m == "PC" then Some((q.pc + 1) % DOS_A_LA_32) else LeerRegistro(q, m)
  {
  }

  lemma RestoDeResto(x: int, n: string)
    ensures x % DOS_A_LA_32 % Ancho(n) == x % Ancho(n)
  {
    if Ancho(n) == 256 {
      var y, a := x % DOS_A_LA_32, x / DOS_A_LA_32;
      var b, c := y / 256, x / 256;
      assert x == DOS_A_LA_32 * a + y && y == 256 * b + y % 256 && x == 256 * c + x % 256;
    }
  }

  /** The register instructions do what they mean, and fail exactly when their parameters are wrong. */
  lemma BasicaSignifica(r: Registros, ins: Instruccion, q: Registros)
    ensures Basica(r, ins).Some? <==> BienFormada(ins)
    ensures Basica(r, ins) == Some(q) <==> Significa(r, ins, q)
  {
    hide Asignar, Queda, ParsearUint32;
    LeerSiRegistro(r);
    var p := ins.parametros;
    if BienFormada(ins) {
      BasicaHace(r, ins);
      if Significa(r, ins, q) {
        BasicaUna(r, ins, Basica(r, ins).value, q);
      }
    } else if |p| == 2 {
      AsignarQueda(r, p[0], ParsearUint32(p[1]));
    }
  }

  lemma LeerSiRegistro(r: Registros)
    ensures forall n: string :: LeerRegistro(r, n).Some? <==> EsRegistro(n)
  {
  }

  lemma BasicaHace(r: Registros, ins: Instruccion)
    requires BienFormada(ins)
    ensures Basica(r, ins).Some? && Significa(r, ins, Basica(r, ins).value)
  {
    hide Asignar, Queda, ParsearUint32, Ancho;
    LeerSiRegistro(r);
    AvanzaQueda(r);
    var p := ins.parametros;
    if ins.opcode == SET {
      AsignarQueda(r, p[0], ParsearUint32(p[1]));
    } else if ins.opcode == JNZ {
      SaltaQueda(r, ParsearUint32(p[1]));
    } else if ins.opcode == SUM || ins.opcode == SUB {
      var x := if ins.opcode == SUM then Vale(r, p[0]) + Vale(r, p[1]) else Vale(r, p[0]) - Vale(r, p[1]);
      RestoDeResto(x, p[0]);
      AsignarQueda(r, p[0], x % DOS_A_LA_32);
    }
  }

  lemma AvanzaQueda(r: Registros)
    ensures Queda(r, AvanzarPc(r), "PC", (r.pc + 1) % 0x1_0000_0000, (r.pc + 1) % 0x1_0000_0000)
  {
  }

  lemma SaltaQueda(r: Registros, pc: U32)
    ensures Queda(r, r.(pc := pc), "PC", pc, pc)
  {
  }

  lemma BasicaUna(r: Registros, ins: Instruccion, q: Registros, w: Registros)
    requires Significa(r, ins, q) && Significa(r, ins, w)
    ensures q == w
  {
    hide Queda, ParsearUint32, Ancho, LeerRegistro;
    var p, sigue := ins.parametros, (r.pc + 1) % 0x1_0000_0000;
    match ins.opcode
    case NOOP => QuedaUno(r, q, w, "PC", sigue, sigue);
    case SET => QuedaUno(r, q, w, p[0], ParsearUint32(p[1]) % Ancho(p[0]), sigue);
    case SUM => QuedaUno(r, q, w, p[0], (Vale(r, p[0]) + Vale(r, p[1])) % Ancho(p[0]), sigue);
    case SUB => QuedaUno(r, q, w, p[0], (Vale(r, p[0]) - Vale(r, p[1])) % Ancho(p[0]), sigue);
    case JNZ =>
      var pc := if Vale(r, p[0]) != 0 then ParsearUint32(p[1]) else sigue;
      QuedaUno(r, q, w, "PC", pc, pc);
  }

  lemma EscribirDespuesDePc(r: Registros, a: string, v: U32)
    requires a != "PC" && TamanioRegistro(a).Some?
    ensures LeerRegistro(AvanzarPc(r), a) == LeerRegistro(r, a)
    ensures EscribirRegistro(AvanzarPc(r), a, v) == Some(AvanzarPc(EscribirRegistro(r, a, v).value))
  {
  }

  /** Writing a register's old value, or one that is equal up to its width, over a new one restores the registers. */
  lemma EscribirVuelta(r: Registros, a: string, v: U32, w: U32)
    requires TamanioRegistro(a).Some? && w % Modulo(a) == LeerRegistro(r, a).value
    ensures EscribirRegistro(EscribirRegistro(r, a, v).value, a, w) == Some(r)
  {
  }

  lemma RegistroEnRango(r: Registros, a: string)
    requires TamanioRegistro(a).Some?
    ensures 0 <= LeerRegistro(r, a).value < Modulo(a)
  {
  }

  lemma Envolver(x: int, y: int, m: int)
    requires m == 256 || m == DOS_A_LA_32
    requires 0 <= x < m
    ensures ((x + y) % DOS_A_LA_32 % m - y) % DOS_A_LA_32 % m == x
  {
    if m == 256 {
      Envolver8(x, y);
    }
  }

  lemma Envolver8(x: int, y: int)
    requires 0 <= x < 256
    ensures ((x + y) % DOS_A_LA_32 % 256 - y) % DOS_A_LA_32 % 256 == x
  {
    var z1 := (x + y) % DOS_A_LA_32;
    var w := z1 % 256 - y;
    var a, b, c := (x + y) / DOS_A_LA_32, z1 / 256, w / DOS_A_LA_32;
    assert x + y == DOS_A_LA_32 * a + z1 && z1 == 256 * b + z1 % 256 && w == DOS_A_LA_32 * c + w % DOS_A_LA_32;
    Congruente(x, w % DOS_A_LA_32, 0x100_0000 * (a + c) + b);
  }

  lemma Congruente(x: int, w: int, k: int)
    requires 0 <= x < 256 && x == w + 256 * k
    ensures w % 256 == x
  {
  }

  /** SUB undoes SUM, whatever wrapped around, in 8 or 32 bits. */
  lemma SumaYResta(r: Registros, a: string, b: string)
    requires TamanioRegistro(a).Some? && TamanioRegistro(b).Some? && a != b && a != "PC" && b != "PC"
    ensures var s := Basica(r, Instruccion(SUM, [a, b]));
            s.Some? && Basica(s.value, Instruccion(SUB, [a, b])) == Some(AvanzarPc(AvanzarPc(r)))
  {
    RegistroEnRango(r, a);
    RegistroEnRango(r, b);
    var x, y := LeerRegistro(r, a).value, LeerRegistro(r, b).value;
    var suma := (x + y) % DOS_A_LA_32;
    LeerEscrito(r, a, a, suma);
    LeerEscrito(r, a, b, suma);
    var q := EscribirRegistro(r, a, suma).value;
    var resta := (suma % Modulo(a) - y) % DOS_A_LA_32;
    Envolver(x, y, Modulo(a));
    EscribirVuelta(r, a, suma, resta);
    EscribirDespuesDePc(q, a, resta);
    EscribirDespuesDePc(q, b, 0);
    SumaYRestaOperan(r, a, b, q, x, y, suma, resta);
  }

  lemma SumaYRestaOperan(r: Registros, a: string, b: string, q: Registros, x: U32, y: U32, suma: U32, resta: U32)
    requires a != "PC" && suma == (x + y) % DOS_A_LA_32 && resta == (suma % Modulo(a) - y) % DOS_A_LA_32
    requires LeerRegistro(r, a) == Some(x) && LeerRegistro(r, b) == Some(y) && EscribirRegistro(r, a, suma) == Some(q)
    requires LeerRegistro(AvanzarPc(q), a) == Some(suma % Modulo(a)) && LeerRegistro(AvanzarPc(q), b) == Some(y)
    requires EscribirRegistro(AvanzarPc(q), a, resta) == Some(AvanzarPc(r))
    ensures Operar(r, [a, b], false) == Some(AvanzarPc(q))
    ensures Operar(AvanzarPc(q), [a, b], true) == Some(AvanzarPc(AvanzarPc(r)))
  {
  }

  // ---------------------------------------------------------------- memory instructions

  /** Big-endian for 32-bit registers, the byte itself for 8-bit ones. */
  function ValorABytes(v: U32, n: U32): (s: seq<Byte>)
    ensures |s| == if n == 1 then 1 else 4
  {
    if n == 1 then [v % 256]
    else
      var v1 := v / 256;
      var v2 := v1 / 256;
      [v2 / 256, v2 % 256, v1 % 256, v % 256]
  }

  function BytesAValor(s: seq<Byte>, n: U32): U32 {
    if n == 1 && |s| >= 1 then s[0]
    else if |s| >= 4 then
      var alto: int := s[0];
      256 * (256 * (256 * alto + s[1]) + s[2]) + s[3]
    else 0
  }

  /** The number `v` in four bytes, most significant first. */
  predicate EnCuatro(s: seq<Byte>, v: int) {
    |s| == 4 && 0x100_0000 * (s[0] as int) + 0x1_0000 * (s[1] as int) + 0x100 * (s[2] as int) + s[3] as int == v
  }

  /** A register of four bytes is kept with its most significant byte first. */
  lemma BytesEnOrden(v: U32, s: seq<Byte>)
    ensures ValorABytes(v, 4) == s <==> EnCuatro(s, v)
    ensures |s| == 4 ==> (BytesAValor(s, 4) == v <==> EnCuatro(s, v))
    ensures ValorABytes(v, 1) == [v % 256] && (|s| == 1 ==> BytesAValor(s, 1) == s[0])
  {
    var b := ValorABytes(v, 4);
    var v1 := v / 256;
    var v2 := v1 / 256;
    assert v == 256 * v1 + v % 256 && v1 == 256 * v2 + v1 % 256 && v2 == 256 * (v2 / 256) + v2 % 256;
    assert EnCuatro(b, v);
    if EnCuatro(s, v) {
      Digitos(s, b);
    }
  }

  lemma Digitos(s: seq<Byte>, b: seq<Byte>)
    requires |s| == |b| == 4 && EnCuatro(b, 0x100_0000 * (s[0] as int) + 0x1_0000 * (s[1] as int) + 0x100 * (s[2] as int) + s[3] as int)
    ensures s == b
  {
    assert s[3] == b[3];
    assert s[2] == b[2];
    assert s[1] == b[1];
  }

  /** What MOV_OUT stores, MOV_IN reads back. */
  lemma IdaYVueltaBytes(v: U32)
    ensures BytesAValor(ValorABytes(v, 4), 4) == v && BytesAValor(ValorABytes(v, 1), 1) == v % 256
  {
  }

  /** A memory as the instructions use it: is an access allowed, read it, write it. */
  datatype Memoria<!M> = Memoria(
    admite: (M, U32, U32) -> ResultadoCpu,
    leer: (M, U32, U32) -> seq<Byte>,
    escribir: (M, U32, seq<Byte>) -> M)

  datatype Salida<M> = Salida(res: ResultadoCpu, memoria: M, registros: Registros)

  function MovIn<M>(mem: Memoria<M>, m: M, r: Registros, p: seq<string>): Salida<M> {
    if |p| != 1 || TamanioRegistro(p[0]).None? then Salida(CpuError, m, r)
    else
      var n := TamanioRegistro(p[0]).value;
      var c := mem.admite(m, r.si, n);
      if c != CpuOk then Salida(c, m, r)
      else match Asignar(r, p[0], BytesAValor(mem.leer(m, r.si, n), n))
        case None => Salida(CpuError, m, r)
        case Some(q) => Salida(CpuOk, m, q)
  }

  function MovOut<M>(mem: Memoria<M>, m: M, r: Registros, p: seq<string>): Salida<M> {
    if |p| != 1 || TamanioRegistro(p[0]).None? || LeerRegistro(r, p[0]).None? then Salida(CpuError, m, r)
    else
      var n := TamanioRegistro(p[0]).value;
      var c := mem.admite(m, r.di, n);
      if c != CpuOk then Salida(c, m, r)
      else Salida(CpuOk, mem.escribir(m, r.di, ValorABytes(LeerRegistro(r, p[0]).value, n)), AvanzarPc(r))
  }

  function CopyMem<M>(mem: Memoria<M>, m: M, r: Registros, p: seq<string>): Salida<M> {
    if |p| != 1 || LeerRegistro(r, p[0]).None? || LeerRegistro(r, p[0]).value == 0 then Salida(CpuError, m, r)
    else
      var n := LeerRegistro(r, p[0]).value;
      var c, d := mem.admite(m, r.si, n), mem.admite(m, r.di, n);
      if c != CpuOk then Salida(c, m, r)
      else if d != CpuOk then Salida(d, m, r)
      else Salida(CpuOk, mem.escribir(m, r.di, mem.leer(m, r.si, n)), AvanzarPc(r))
  }

  /** One instruction that is neither a syscall nor unknown. */
  function PasoCpu<M>(mem: Memoria<M>, m: M, r: Registros, ins: Instruccion): Salida<M> {
    match ins.opcode
    case MOV_IN => MovIn(mem, m, r, ins.parametros)
    case MOV_OUT => MovOut(mem, m, r, ins.parametros)
    case COPY_MEM => CopyMem(mem, m, r, ins.parametros)
    case _ =>
      match Basica(r, ins)
      case None => Salida(CpuError, m, r)
      case Some(q) => Salida(CpuOk, m, q)
  }

  // ---------------------------------------------------------------- bursts

  datatype Sondeo = SinMensaje | Recibida | SondeoFallido

  datatype FinDeRafaga = ErrorFetch | ErrorDecode | ErrorExecute | SegFault | Interrupcion | Syscall(ins: Instruccion) | Exit

  datatype Rafaga<M> = Rafaga(fin: FinDeRafaga, memoria: M, registros: Registros, ejecutadas: nat)

  /** The parameters a syscall must come with; console calls name registers. */
  predicate SyscallValida(r: Registros, ins: Instruccion) {
    var n := |ins.parametros|;
    match ins.opcode
    case EXIT => n == 0
    case MUTEX_CREATE => n == 1
    case MUTEX_LOCK => n == 1
    case MUTEX_UNLOCK => n == 1
    case SLEEP => n == 1
    case MEM_FREE => n == 1
    case MEM_ALLOC => n == 2
    case INIT_PROC => n == 2
    case STDOUT => n == 2 && TamanioRegistro(ins.parametros[0]).Some? && TamanioRegistro(ins.parametros[1]).Some?
    case STDIN => n == 2 && TamanioRegistro(ins.parametros[0]).Some? && TamanioRegistro(ins.parametros[1]).Some?
    case _ => false
  }

  /** How a burst ends at a syscall, with the program counter already past it. */
  function FinDeSyscall(r: Registros, ins: Instruccion): FinDeRafaga {
    if !SyscallValida(r, ins) then ErrorExecute else if ins.opcode == EXIT then Exit else Syscall(ins)
  }

  /** The instructions of a memory, as a step function. */
  function PasoSobre<M>(mem: Memoria<M>): (M, Registros, Instruccion) -> Salida<M> {
    (m, r, ins) => PasoCpu(mem, m, r, ins)
  }

  /**
   * A burst: instructions until a syscall, a fault or an interruption. `sondeos` is what
   * each look at the Kernel Scheduler's socket will find; after the last one comes an interruption.
   */
  function Correr<M>(paso: (M, Registros, Instruccion) -> Salida<M>, prog: seq<Instruccion>, m: M, r: Registros, sondeos: seq<Sondeo>): Rafaga<M>
    decreases |sondeos|
  {
    if r.pc >= |prog| then Rafaga(ErrorFetch, m, r, 0)
    else
      var ins := prog[r.pc];
      if ins.opcode == UNKNOWN then Rafaga(ErrorDecode, m, r, 0)
      else if EsSyscallOExit(ins.opcode) then
        var q := AvanzarPc(r);
        Rafaga(FinDeSyscall(q, ins), m, q, 0)
      else
        var s := paso(m, r, ins);
        if s.res == CpuSegFault then Rafaga(SegFault, s.memoria, s.registros, 0)
        else if s.res == CpuError then Rafaga(ErrorExecute, s.memoria, s.registros, 0)
        else if sondeos == [] || sondeos[0] == Recibida then Rafaga(Interrupcion, s.memoria, s.registros, 1)
        else if sondeos[0] == SondeoFallido then Rafaga(ErrorExecute, s.memoria, s.registros, 1)
        else
          var resto := Correr(paso, prog, s.memoria, s.registros, sondeos[1..]);
          resto.(ejecutadas := resto.ejecutadas + 1)
  }

  /** The state after `n` instructions, without looking at interruptions. */
  function PasosCpu<M>(paso: (M, Registros, Instruccion) -> Salida<M>, prog: seq<Instruccion>, m: M, r: Registros, n: nat): (M, Registros)
    decreases n
  {
    if n == 0 || r.pc >= |prog| then (m, r)
    else
      var s := paso(m, r, prog[r.pc]);
      PasosCpu(paso, prog, s.memoria, s.registros, n - 1)
  }

  /** However a burst ends, it has done exactly the instructions it counted; only a syscall moves the program counter once more. */
  lemma {:induction false} CorrerEsPasos<M>(paso: (M, Registros, Instruccion) -> Salida<M>, prog: seq<Instruccion>, m: M, r: Registros, sondeos: seq<Sondeo>)
    ensures var x := Correr(paso, prog, m, r, sondeos);
            var y := PasosCpu(paso, prog, m, r, x.ejecutadas);
            x.fin == Interrupcion ==> x.memoria == y.0 && x.registros == y.1 && x.ejecutadas > 0
    ensures var x := Correr(paso, prog, m, r, sondeos);
            var y := PasosCpu(paso, prog, m, r, x.ejecutadas);
            x.fin.Syscall? || x.fin == Exit ==> x.memoria == y.0 && x.registros == AvanzarPc(y.1)
    decreases |sondeos|
  {
    if r.pc < |prog| && !EsSyscallOExit(prog[r.pc].opcode) && prog[r.pc].opcode != UNKNOWN {
      var s := paso(m, r, prog[r.pc]);
      if s.res == CpuOk && sondeos != [] && sondeos[0] == SinMensaje {
        CorrerEsPasos(paso, prog, s.memoria, s.registros, sondeos[1..]);
      }
    }
  }

  /** The opcodes that end a burst. */
  predicate EsLlamada(o: Opcode) {
    o in [MUTEX_CREATE, MUTEX_LOCK, MUTEX_UNLOCK, SLEEP, MEM_ALLOC, MEM_FREE, INIT_PROC, STDOUT, STDIN, EXIT]
  }

  /** Why a burst ended, seen in the state `m`, `r` of the instructions it counted, `n` of them. */
  predicate Motivo<M>(paso: (M, Registros, Instruccion) -> Salida<M>, prog: seq<Instruccion>, sondeos: seq<Sondeo>, fin: FinDeRafaga, m: M, r: Registros, n: nat) {
    match fin
    case ErrorFetch => r.pc >= |prog|
    case ErrorDecode => r.pc < |prog| && prog[r.pc].opcode == UNKNOWN
    case Exit => r.pc < |prog| && prog[r.pc] == Instruccion(EXIT, [])
    case Syscall(ins) => r.pc < |prog| && prog[r.pc] == ins && EsLlamada(ins.opcode) && ins.opcode != EXIT && SyscallValida(AvanzarPc(r), ins)
    case SegFault => Normal(prog, r) && paso(m, r, prog[r.pc]).res == CpuSegFault
    case Interrupcion => 0 < n && (if n <= |sondeos| then sondeos[n - 1] == Recibida else n == |sondeos| + 1)
    case ErrorExecute =>
      || (r.pc < |prog| && EsLlamada(prog[r.pc].opcode) && !SyscallValida(AvanzarPc(r), prog[r.pc]))
      || (Normal(prog, r) && paso(m, r, prog[r.pc]).res == CpuError)
      || (0 < n <= |sondeos| && sondeos[n - 1] == SondeoFallido)
  }

  predicate Normal(prog: seq<Instruccion>, r: Registros) {
    r.pc < |prog| && prog[r.pc].opcode in [NOOP, SET, SUM, SUB, JNZ, MOV_IN, MOV_OUT, COPY_MEM]
  }

  /** Every burst ends for one of these reasons, at the first instruction that gives one, having looked at the socket after each. */
  lemma {:induction false} CorrerMotivo<M>(paso: (M, Registros, Instruccion) -> Salida<M>, prog: seq<Instruccion>, m: M, r: Registros, sondeos: seq<Sondeo>)
    ensures var x := Correr(paso, prog, m, r, sondeos);
            var y := PasosCpu(paso, prog, m, r, x.ejecutadas);
            && Motivo(paso, prog, sondeos, x.fin, y.0, y.1, x.ejecutadas)
            && x.ejecutadas <= |sondeos| + 1 && forall i :: 0 <= i < x.ejecutadas - 1 ==> sondeos[i] == SinMensaje
    decreases |sondeos|
  {
    if r.pc < |prog| && !EsSyscallOExit(prog[r.pc].opcode) && prog[r.pc].opcode != UNKNOWN {
      var s := paso(m, r, prog[r.pc]);
      if s.res == CpuOk && sondeos != [] && sondeos[0] == SinMensaje {
        CorrerMotivo(paso, prog, s.memoria, s.registros, sondeos[1..]);
        var x, z := Correr(paso, prog, m, r, sondeos), Correr(paso, prog, s.memoria, s.registros, sondeos[1..]);
        assert x.ejecutadas == z.ejecutadas + 1 && x.fin == z.fin;
        forall i | 0 <= i < x.ejecutadas - 1
          ensures sondeos[i] == SinMensaje
        {
          assert i > 0 ==> sondeos[i] == sondeos[1..][i - 1];
        }
      }
    }
  }

  /**
   * Cutting a burst at any interruption point and going on from there is the same as not
   * cutting it: only the number of looks at the socket matters.
   */
  lemma {:induction false} CorrerPartido<M>(paso: (M, Registros, Instruccion) -> Salida<M>, prog: seq<Instruccion>, m: M, r: Registros, antes: seq<Sondeo>, despues: seq<Sondeo>)
    requires forall i :: 0 <= i < |antes| ==> antes[i] == SinMensaje
    ensures var x := Correr(paso, prog, m, r, antes);
            x.fin == Interrupcion ==>
              var y := Correr(paso, prog, x.memoria, x.registros, despues);
              Correr(paso, prog, m, r, antes + [SinMensaje] + despues) == y.(ejecutadas := x.ejecutadas + y.ejecutadas)
    decreases |antes|
  {
    var x := Correr(paso, prog, m, r, antes);
    if x.fin == Interrupcion {
      var s := paso(m, r, prog[r.pc]);
      if antes == [] {
        assert [] + [SinMensaje] + despues == [SinMensaje] + despues;
        assert ([SinMensaje] + despues)[1..] == despues;
      } else {
        assert (antes + [SinMensaje] + despues)[1..] == antes[1..] + [SinMensaje] + despues;
        CorrerPartido(paso, prog, s.memoria, s.registros, antes[1..], despues);
      }
    }
  }
}
