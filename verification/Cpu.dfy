/** The CPU: registers changed in place by each instruction, and the burst loop around them. */
module Cpu {
  import opened Basics
  import opened Sticks
  import opened Contexto
  import opened KmEstado
  import opened KmOperaciones
  import opened Mmu
  import opened CpuMemorySticks
  import opened CpuInstrucciones
  import opened CpuTransparencia
  import PhysicalMemory

  /** A segment table the sticks can serve: every segment starts in the stick it names and fits in memory. */
  predicate TablaServible(sticks: seq<StickInfo>, segs: seq<Segmento>) {
    && |sticks| <= CPU_MEMORY_STICK_ID_MAX + 1
    && forall i :: 0 <= i < |segs| ==>
         SegmentoOk(sticks, segs[i]) && segs[i].base + segs[i].limite <= Total(sticks)
  }

  lemma TablaAlcanza(sticks: seq<StickInfo>, segs: seq<Segmento>, segMax: U32, dir: U32, n: U32)
    requires Contiguous(sticks) && TablaServible(sticks, segs) && Traducir(segs, segMax, dir, n).MmuOk?
    ensures var t := Traducir(segs, segMax, dir, n).traduccion; Servible(sticks, t.stick, t.fisica, n) && n <= I32_MAX
  {
    var t := Traducir(segs, segMax, dir, n).traduccion;
    var i := BuscarSegmento(segs, dir / segMax).value;
    assert SegmentoOk(sticks, segs[i]) && segs[i].base + segs[i].limite <= Total(sticks);
    forall a: U32 | t.fisica <= a < t.fisica + n
      ensures Alcanzable(sticks, a)
    {
      StickAtTotal(sticks, a);
    }
  }

  /** `mem` is `antes` with some first part replaced by that of `entera`. */
  ghost predicate Entre(antes: seq<Byte>, mem: seq<Byte>, entera: seq<Byte>) {
    |entera| == |antes| && exists n: nat :: n <= |antes| && mem == entera[..n] + antes[n..]
  }

  /** A store of which only a first part was done. */
  lemma ParcialEntre(antes: seq<Byte>, mem: seq<Byte>, dir: nat, datos: seq<Byte>)
    requires dir + |datos| <= |antes| && CpuMemorySticks.Parcial(antes, mem, dir, datos)
    ensures Entre(antes, mem, Splice(antes, dir, datos))
  {
    var n: nat :| n <= |datos| && PhysicalMemory.PhysicalMemory.Written(antes, mem, dir, datos, n);
    assert mem == Splice(antes, dir, datos)[..dir + n] + antes[dir + n..];
  }

  lemma EntreExtremos(antes: seq<Byte>, entera: seq<Byte>)
    requires |entera| == |antes|
    ensures Entre(antes, antes, entera) && Entre(antes, entera, entera)
  {
    assert antes == entera[..0] + antes[0..];
    assert entera == entera[..|antes|] + antes[|antes|..];
  }

  lemma {:induction false} PasosCpuUltimo<M>(paso: (M, Registros, Instruccion) -> Salida<M>, prog: seq<Instruccion>, m: M, r: Registros, n: nat)
    decreases n
    ensures var y := PasosCpu(paso, prog, m, r, n);
            y.1.pc < |prog| ==>
              var s := paso(y.0, y.1, prog[y.1.pc]);
              PasosCpu(paso, prog, m, r, n + 1) == (s.memoria, s.registros)
  {
    if n > 0 && r.pc < |prog| {
      var s := paso(m, r, prog[r.pc]);
      PasosCpuUltimo(paso, prog, s.memoria, s.registros, n - 1);
    } else if r.pc < |prog| {
      var s := paso(m, r, prog[r.pc]);
      assert PasosCpu(paso, prog, s.memoria, s.registros, 0) == (s.memoria, s.registros);
    }
  }

  class Cpu {
    const mmu: Mmu
    const sticks: CpuMemorySticks
    var registros: Registros
    var segmentos: seq<Segmento>

    ghost predicate Valid()
      reads this, sticks, sticks.fisica, sticks.fisica.Repr, sticks.entradas
    {
      && sticks.Valid()
      && this !in sticks.fisica.Repr && mmu !in sticks.fisica.Repr
    }

    constructor (mmu: Mmu, sticks: CpuMemorySticks)
      requires sticks.Valid() && mmu !in sticks.fisica.Repr
      ensures Valid() && this.mmu == mmu && this.sticks == sticks && registros == REGISTROS_CERO && segmentos == []
    {
      this.mmu, this.sticks, registros, segmentos := mmu, sticks, REGISTROS_CERO, [];
    }

    ghost function Mem(): Memoria<seq<Byte>>
      reads this`segmentos, mmu
    {
      Fisica(segmentos, mmu.segmentMaxSize)
    }

    // -------------------------------------------------------------- registers

    method EscribirValorRegistro(nombre: string, valor: U32) returns (ok: bool)
      modifies this`registros
      ensures match EscribirRegistro(old(registros), nombre, valor)
        case Some(r) => ok && registros == r
        case None => !ok && registros == old(registros)
    {
      var tamanio := TamanioRegistro(nombre);
      if tamanio.None? {
        return false;
      }
      if tamanio == Some(1) {
        var valor8 := valor % 256;
        match nombre
        case "AX" => registros := registros.(ax := valor8);
        case "BX" => registros := registros.(bx := valor8);
        case "CX" => registros := registros.(cx := valor8);
        case _ => registros := registros.(dx := valor8);
      } else {
        match nombre
        case "EAX" => registros := registros.(eax := valor);
        case "EBX" => registros := registros.(ebx := valor);
        case "ECX" => registros := registros.(ecx := valor);
        case "EDX" => registros := registros.(edx := valor);
        case "SI" => registros := registros.(si := valor);
        case "DI" => registros := registros.(di := valor);
        case _ => registros := registros.(pc := valor);
      }
      ok := true;
    }

    method AvanzarContador()
      modifies this`registros
      ensures registros == AvanzarPc(old(registros))
    {
      registros := registros.(pc := (registros.pc + 1) % DOS_A_LA_32);
    }

    /** Writes a register and moves on, unless the register was the program counter itself. */
    method AsignarYAvanzar(destino: string, valor: U32) returns (res: ResultadoCpu)
      modifies this`registros
      ensures match Asignar(old(registros), destino, valor)
        case Some(r) => res == CpuOk && registros == r
        case None => res == CpuError && registros == old(registros)
    {
      var ok := EscribirValorRegistro(destino, valor);
      if !ok {
        return CpuError;
      }
      if destino != "PC" {
        AvanzarContador();
      }
      res := CpuOk;
    }

    // -------------------------------------------------------------- basic instructions

    static lemma BasicaConSentido(r: Registros, ins: Instruccion)
      ensures Basica(r, ins).Some? <==> BienFormada(ins)
      ensures Basica(r, ins).Some? ==> Significa(r, ins, Basica(r, ins).value)
      ensures ins.opcode == JNZ && BienFormada(ins) ==> LeerRegistro(r, ins.parametros[0]).Some?
    {
      hide Basica, Significa;
      BasicaSignifica(r, ins, if Basica(r, ins).Some? then Basica(r, ins).value else r);
      LeerSiRegistro(r);
    }

    method EjecutarInstruccion(ins: Instruccion) returns (res: ResultadoCpu)
      modifies this`registros
      ensures match Basica(old(registros), ins)
        case Some(r) => res == CpuOk && registros == r
        case None => res == CpuError && registros == old(registros)
      ensures res == CpuOk <==> BienFormada(ins)
      ensures res == CpuOk ==> Significa(old(registros), ins, registros)
      ensures ins.opcode == JNZ && BienFormada(ins) ==>
        registros == old(registros).(pc := if LeerRegistro(old(registros), ins.parametros[0]).value != 0 then ParsearUint32(ins.parametros[1])
                                           else (old(registros).pc + 1) % 0x1_0000_0000)
    {
      hide Significa;
      BasicaConSentido(registros, ins);
      var p := ins.parametros;
      match ins.opcode
      case NOOP =>
        AvanzarContador();
        res := CpuOk;
      case SET =>
        if |p| != 2 {
          return CpuError;
        }
        res := AsignarYAvanzar(p[0], ParsearUint32(p[1]));
      case SUM =>
        res := SumarORestar(p, false);
      case SUB =>
        res := SumarORestar(p, true);
      case JNZ =>
        if |p| != 2 || LeerRegistro(registros, p[0]).None? {
          return CpuError;
        }
        if LeerRegistro(registros, p[0]).value != 0 {
          registros := registros.(pc := ParsearUint32(p[1]));
        } else {
          AvanzarContador();
        }
        res := CpuOk;
      case _ =>
        res := CpuError;
    }

    method SumarORestar(p: seq<string>, resta: bool) returns (res: ResultadoCpu)
      modifies this`registros
      ensures match Operar(old(registros), p, resta)
        case Some(r) => res == CpuOk && registros == r
        case None => res == CpuError && registros == old(registros)
    {
      if |p| != 2 {
        return CpuError;
      }
      var destino, origen := LeerRegistro(registros, p[0]), LeerRegistro(registros, p[1]);
      if destino.None? || origen.None? {
        return CpuError;
      }
      if resta {
        res := AsignarYAvanzar(p[0], (destino.value - origen.value) % DOS_A_LA_32);
      } else {
        res := AsignarYAvanzar(p[0], (destino.value + origen.value) % DOS_A_LA_32);
      }
    }

    // -------------------------------------------------------------- memory instructions

    /** What the result of a memory instruction may be, given what it should be: a fault of the environment can only turn success into an error. */
    static predicate Cumple(debida: Salida<seq<Byte>>, res: ResultadoCpu, mem: seq<Byte>, r: Registros, antes: Registros, sinAverias: bool) {
      && (res == debida.res || (debida.res == CpuOk && res == CpuError && !sinAverias))
      && (res == debida.res ==> mem == debida.memoria && r == debida.registros)
      && (res != CpuOk ==> r == antes)
    }

    /** With a table that lies in memory, what was done of a store, if not all, is a first part of it. */
    ghost predicate ParteDe(antes: seq<Byte>, mem: seq<Byte>, entera: seq<Byte>)
      reads this`segmentos
    {
      EnRango(antes, segmentos) ==> Entre(antes, mem, entera)
    }

    /** Nothing failed on the way, and the table can be served. */
    ghost predicate Atendible()
      reads this`segmentos, sticks, sticks.fisica
    {
      TablaServible(sticks.fisica.sticks, segmentos)
    }

    method TraducirOFallar(dir: U32, n: U32) returns (res: ResultadoCpu, t: Option<Traduccion>)
      ensures res == Mem().admite([], dir, n)
      ensures res == CpuOk <==> t.Some?
      ensures t.Some? ==> Traducir(segmentos, mmu.segmentMaxSize, dir, n) == MmuOk(t.value)
    {
      var r := mmu.TraducirDireccionLogica(segmentos, dir, n);
      match r
      case MmuOk(traduccion) => return CpuOk, Some(traduccion);
      case MmuError => return CpuError, None;
      case _ => return CpuSegFault, None;
    }

    /** Reads a translated access. */
    method LeerAcceso(ghost dir: U32, n: U32, t: Traduccion) returns (r: Option<seq<Byte>>)
      requires Valid() && Traducir(segmentos, mmu.segmentMaxSize, dir, n) == MmuOk(t)
      modifies sticks, sticks.entradas, sticks.red
      ensures Valid() && sticks.red.averias >= old(sticks.red.averias) && (sticks.entradas == old(sticks.entradas) || fresh(sticks.entradas))
      ensures r.Some? ==> |r.value| == n && r.value == LeerFisica(segmentos, mmu.segmentMaxSize, sticks.fisica.flat, dir, n)
      ensures sticks.red.averias == old(sticks.red.averias) && Atendible() ==> r.Some?
    {
      LlegaSiAtendible(dir, n);
      r := sticks.MemoriaReadFragmentada(t.stick, t.fisica, n);
    }

    /** Writes a translated access. */
    method EscribirAcceso(ghost dir: U32, t: Traduccion, datos: seq<Byte>) returns (ok: bool)
      requires Valid() && |datos| <= U32_MAX && Traducir(segmentos, mmu.segmentMaxSize, dir, |datos|) == MmuOk(t)
      modifies sticks, sticks.entradas, sticks.red, sticks.fisica.Repr
      ensures Valid() && sticks.red.averias >= old(sticks.red.averias) && (sticks.entradas == old(sticks.entradas) || fresh(sticks.entradas))
      ensures sticks.fisica.Repr == old(sticks.fisica.Repr) && sticks.fisica.sticks == old(sticks.fisica.sticks)
      ensures ok ==> sticks.fisica.flat == EscribirFisica(segmentos, mmu.segmentMaxSize, old(sticks.fisica.flat), dir, datos)
      ensures ParteDe(old(sticks.fisica.flat), sticks.fisica.flat, EscribirFisica(segmentos, mmu.segmentMaxSize, old(sticks.fisica.flat), dir, datos))
      ensures sticks.red.averias == old(sticks.red.averias) && Atendible() ==> ok
    {
      LlegaSiAtendible(dir, |datos|);
      ghost var antes := sticks.fisica.flat;
      ok := sticks.MemoriaWriteFragmentada(t.stick, t.fisica, datos);
      if EnRango(antes, segmentos) {
        TraduceEnRango(segmentos, mmu.segmentMaxSize, antes, dir, |datos|);
        ParcialEntre(antes, sticks.fisica.flat, t.fisica, datos);
      }
    }

    method EjecutarMovIn(p: seq<string>) returns (res: ResultadoCpu)
      requires Valid()
      modifies this`registros, sticks, sticks.entradas, sticks.red
      ensures Valid() && sticks.red.averias >= old(sticks.red.averias) && (sticks.entradas == old(sticks.entradas) || fresh(sticks.entradas))
      ensures Cumple(MovIn(Mem(), sticks.fisica.flat, old(registros), p), res, sticks.fisica.flat, registros, old(registros),
                     sticks.red.averias == old(sticks.red.averias) && Atendible())
    {
      if |p| != 1 || TamanioRegistro(p[0]).None? {
        return CpuError;
      }
      var n := TamanioRegistro(p[0]).value;
      var t;
      res, t := TraducirOFallar(registros.si, n);
      if res != CpuOk {
        return;
      }
      var buffer := LeerAcceso(registros.si, n, t.value);
      if buffer.None? {
        return CpuError;
      }
      res := AsignarYAvanzar(p[0], BytesAValor(buffer.value, n));
    }

    lemma LlegaSiAtendible(dir: U32, n: U32)
      requires sticks.Valid() && Traducir(segmentos, mmu.segmentMaxSize, dir, n).MmuOk?
      ensures Atendible() ==>
        var t := Traducir(segmentos, mmu.segmentMaxSize, dir, n).traduccion;
        Servible(sticks.fisica.sticks, t.stick, t.fisica, n) && n <= I32_MAX
    {
      if Atendible() {
        TablaAlcanza(sticks.fisica.sticks, segmentos, mmu.segmentMaxSize, dir, n);
      }
    }

    method EjecutarMovOut(p: seq<string>) returns (res: ResultadoCpu)
      requires Valid()
      modifies this`registros, sticks, sticks.entradas, sticks.red, sticks.fisica.Repr
      ensures Valid() && sticks.red.averias >= old(sticks.red.averias) && (sticks.entradas == old(sticks.entradas) || fresh(sticks.entradas))
      ensures sticks.fisica.Repr == old(sticks.fisica.Repr) && sticks.fisica.sticks == old(sticks.fisica.sticks)
      ensures Cumple(MovOut(Mem(), old(sticks.fisica.flat), old(registros), p), res, sticks.fisica.flat, registros, old(registros),
                     sticks.red.averias == old(sticks.red.averias) && Atendible())
      ensures ParteDe(old(sticks.fisica.flat), sticks.fisica.flat, MovOut(Mem(), old(sticks.fisica.flat), old(registros), p).memoria)
    {
      ghost var antes := sticks.fisica.flat;
      EntreExtremos(antes, antes);
      if |p| != 1 || TamanioRegistro(p[0]).None? || LeerRegistro(registros, p[0]).None? {
        return CpuError;
      }
      var n, valor := TamanioRegistro(p[0]).value, LeerRegistro(registros, p[0]).value;
      var t;
      res, t := TraducirOFallar(registros.di, n);
      if res != CpuOk {
        return;
      }
      var ok := EscribirAcceso(registros.di, t.value, ValorABytes(valor, n));
      if !ok {
        return CpuError;
      }
      AvanzarContador();
    }

    method EjecutarCopyMem(p: seq<string>) returns (res: ResultadoCpu)
      requires Valid()
      modifies this`registros, sticks, sticks.entradas, sticks.red, sticks.fisica.Repr
      ensures Valid() && sticks.red.averias >= old(sticks.red.averias) && (sticks.entradas == old(sticks.entradas) || fresh(sticks.entradas))
      ensures sticks.fisica.Repr == old(sticks.fisica.Repr) && sticks.fisica.sticks == old(sticks.fisica.sticks)
      ensures Cumple(CopyMem(Mem(), old(sticks.fisica.flat), old(registros), p), res, sticks.fisica.flat, registros, old(registros),
                     sticks.red.averias == old(sticks.red.averias) && Atendible())
      ensures ParteDe(old(sticks.fisica.flat), sticks.fisica.flat, CopyMem(Mem(), old(sticks.fisica.flat), old(registros), p).memoria)
    {
      hide LeerRegistro, Traducir, LeerFisica, EscribirFisica, Entre, EnRango, TablaServible;
      ghost var antes := sticks.fisica.flat;
      EntreExtremos(antes, antes);
      if |p| != 1 || LeerRegistro(registros, p[0]).None? || LeerRegistro(registros, p[0]).value == 0 {
        return CpuError;
      }
      var n := LeerRegistro(registros, p[0]).value;
      var origen, destino;
      res, origen := TraducirOFallar(registros.si, n);
      if res != CpuOk {
        return;
      }
      res, destino := TraducirOFallar(registros.di, n);
      if res != CpuOk {
        return;
      }
      var buffer := LeerAcceso(registros.si, n, origen.value);
      if buffer.None? {
        EntreExtremos(antes, CopyMem(Mem(), antes, registros, p).memoria);
        return CpuError;
      }
      var ok := EscribirAcceso(registros.di, destino.value, buffer.value);
      if !ok {
        return CpuError;
      }
      AvanzarContador();
    }

    // -------------------------------------------------------------- the burst loop

    /** Any instruction that is not a syscall. */
    method EjecutarNormal(ins: Instruccion) returns (res: ResultadoCpu)
      requires Valid()
      modifies this`registros, sticks, sticks.entradas, sticks.red, sticks.fisica.Repr
      ensures Valid() && sticks.red.averias >= old(sticks.red.averias) && (sticks.entradas == old(sticks.entradas) || fresh(sticks.entradas))
      ensures sticks.fisica.Repr == old(sticks.fisica.Repr) && sticks.fisica.sticks == old(sticks.fisica.sticks)
      ensures Cumple(PasoCpu(Mem(), old(sticks.fisica.flat), old(registros), ins), res, sticks.fisica.flat, registros, old(registros),
                     sticks.red.averias == old(sticks.red.averias) && Atendible())
      ensures ParteDe(old(sticks.fisica.flat), sticks.fisica.flat, PasoCpu(Mem(), old(sticks.fisica.flat), old(registros), ins).memoria)
    {
      hide Valid, Atendible, MovIn, MovOut, CopyMem, Basica, Entre, EnRango;
      EntreExtremos(sticks.fisica.flat, sticks.fisica.flat);
      NoEscribe(Mem(), sticks.fisica.flat, registros, ins);
      match ins.opcode
      case MOV_IN => res := EjecutarMovIn(ins.parametros);
      case MOV_OUT => res := EjecutarMovOut(ins.parametros);
      case COPY_MEM => res := EjecutarCopyMem(ins.parametros);
      case _ => res := EjecutarSinMemoria(ins);
    }

    method EjecutarSinMemoria(ins: Instruccion) returns (res: ResultadoCpu)
      requires Valid() && ins.opcode != MOV_IN && ins.opcode != MOV_OUT && ins.opcode != COPY_MEM
      modifies this`registros
      ensures Valid() && Cumple(PasoCpu(Mem(), sticks.fisica.flat, old(registros), ins), res, sticks.fisica.flat, registros, old(registros), true)
    {
      res := EjecutarInstruccion(ins);
    }

    /** Only MOV_OUT and COPY_MEM store. */
    static lemma NoEscribe(mem: Memoria<seq<Byte>>, m: seq<Byte>, r: Registros, ins: Instruccion)
      ensures ins.opcode != MOV_OUT && ins.opcode != COPY_MEM ==> PasoCpu(mem, m, r, ins).memoria == m
    {
    }

    /** Asks Kernel Memory for the line the program counter names. */
    method Fetch(prog: seq<Instruccion>) returns (r: Option<Instruccion>)
      requires Valid()
      modifies sticks.red
      ensures Valid() && sticks.red.averias >= old(sticks.red.averias)
      ensures r.Some? ==> registros.pc < |prog| && r.value == prog[registros.pc]
      ensures sticks.red.averias == old(sticks.red.averias) ==> (r.Some? <==> registros.pc < |prog|)
    {
      var responde := sticks.red.Responde();
      r := if responde && registros.pc < |prog| then Some(prog[registros.pc]) else None;
    }

    /** Fetch, decode and execute: one instruction, or the reason why the burst ends here. */
    method EjecutarSiguiente(prog: seq<Instruccion>, ghost quedan: seq<Sondeo>) returns (fin: Option<FinDeRafaga>)
      requires Valid()
      modifies this`registros, sticks, sticks.entradas, sticks.red, sticks.fisica.Repr
      ensures Valid() && sticks.red.averias >= old(sticks.red.averias) && (sticks.entradas == old(sticks.entradas) || fresh(sticks.entradas))
      ensures sticks.fisica.Repr == old(sticks.fisica.Repr) && sticks.fisica.sticks == old(sticks.fisica.sticks)
      ensures match fin
        case None => Hecha(prog, old(sticks.fisica.flat), old(registros))
        case Some(f) =>
          && Hasta(prog, (old(sticks.fisica.flat), old(registros)), f)
          && (sticks.red.averias == old(sticks.red.averias) && Atendible() ==>
                Correr(PasoSobre(Mem()), prog, old(sticks.fisica.flat), old(registros), quedan) == Rafaga(f, sticks.fisica.flat, registros, 0))
    {
      hide PasoCpu, Entre, EnRango, TablaServible;
      var ins := Fetch(prog);
      if ins.None? {
        return Some(ErrorFetch);
      }
      if ins.value.opcode == UNKNOWN {
        return Some(ErrorDecode);
      }
      if EsSyscallOExit(ins.value.opcode) {
        AvanzarContador();
        return Some(FinDeSyscall(registros, ins.value));
      }
      FallaQuieta(Mem(), sticks.fisica.flat, registros, ins.value);
      var res := EjecutarNormal(ins.value);
      fin := if res == CpuSegFault then Some(SegFault) else if res != CpuOk then Some(ErrorExecute) else None;
    }

    /** An instruction that fails changes nothing. */
    static lemma FallaQuieta(mem: Memoria<seq<Byte>>, m: seq<Byte>, r: Registros, ins: Instruccion)
      ensures var s := PasoCpu(mem, m, r, ins); s.res != CpuOk ==> s.memoria == m && s.registros == r
    {
    }

    /** The next instruction has been executed. */
    ghost predicate Hecha(prog: seq<Instruccion>, m: seq<Byte>, r: Registros)
      reads this, mmu, sticks, sticks.fisica
    {
      && r.pc < |prog| && prog[r.pc].opcode != UNKNOWN && !EsSyscallOExit(prog[r.pc].opcode)
      && PasoCpu(Mem(), m, r, prog[r.pc]) == Salida(CpuOk, sticks.fisica.flat, registros)
    }

    /** Executes until a syscall, an end, an interruption or a failure; interruptions are only looked for between instructions. */
    method EjecutarCiclo(prog: seq<Instruccion>, sondeos: seq<Sondeo>) returns (fin: FinDeRafaga, ejecutadas: nat)
      requires Valid()
      modifies this`registros, sticks, sticks.entradas, sticks.red, sticks.fisica.Repr
      ensures Valid() && sticks.red.averias >= old(sticks.red.averias) && (sticks.entradas == old(sticks.entradas) || fresh(sticks.entradas))
      ensures sticks.fisica.Repr == old(sticks.fisica.Repr) && sticks.fisica.sticks == old(sticks.fisica.sticks)
      ensures sticks.red.averias == old(sticks.red.averias) && Atendible() ==>
        Correr(PasoSobre(Mem()), prog, old(sticks.fisica.flat), old(registros), sondeos) == Rafaga(fin, sticks.fisica.flat, registros, ejecutadas)
      ensures Hasta(prog, PasosCpu(PasoSobre(Mem()), prog, old(sticks.fisica.flat), old(registros), ejecutadas), fin)
    {
      hide PasosCpu, PasoCpu, TablaServible, ParteDe;
      ghost var m0, r0 := sticks.fisica.flat, registros;
      SinPasos(prog, m0, r0);
      ghost var total := Correr(PasoSobre(Mem()), prog, m0, r0, sondeos);
      ejecutadas := 0;
      assert sondeos[0..] == sondeos;
      while true
        invariant 0 <= ejecutadas <= |sondeos|
        invariant Valid() && sticks.red.averias >= old(sticks.red.averias) && (sticks.entradas == old(sticks.entradas) || fresh(sticks.entradas))
        invariant sticks.fisica.Repr == old(sticks.fisica.Repr) && sticks.fisica.sticks == old(sticks.fisica.sticks)
        invariant sticks.red.averias == old(sticks.red.averias) && Atendible() ==> Falta(total, prog, sondeos[ejecutadas..], ejecutadas)
        invariant PasosCpu(PasoSobre(Mem()), prog, m0, r0, ejecutadas) == (sticks.fisica.flat, registros)
        decreases |sondeos| - ejecutadas
      {
        PasosCpuUltimo(PasoSobre(Mem()), prog, m0, r0, ejecutadas);
        ghost var quedan := sondeos[ejecutadas..];
        var termina := EjecutarSiguiente(prog, quedan);
        if termina.Some? {
          return termina.value, ejecutadas;
        }
        var sondeo := if ejecutadas == |sondeos| then Recibida else sondeos[ejecutadas];
        ejecutadas := ejecutadas + 1;
        if sondeo == Recibida {
          return Interrupcion, ejecutadas;
        }
        if sondeo == SondeoFallido {
          return ErrorExecute, ejecutadas;
        }
        assert quedan[1..] == sondeos[ejecutadas..];
      }
    }

    lemma SinPasos(prog: seq<Instruccion>, m: seq<Byte>, r: Registros)
      ensures PasosCpu(PasoSobre(Mem()), prog, m, r, 0) == (m, r)
    {
    }

    /**
     * Where a burst that ends with `fin` leaves the CPU, whatever failed on the way: at the
     * state `y` of the instructions it counted; a syscall has moved the program counter, and
     * a failed instruction may have done a first part of its store.
     */
    ghost predicate Hasta(prog: seq<Instruccion>, y: (seq<Byte>, Registros), fin: FinDeRafaga)
      reads this, mmu, sticks, sticks.fisica
    {
      match fin
      case Syscall(_) => registros == AvanzarPc(y.1) && sticks.fisica.flat == y.0
      case Exit => registros == AvanzarPc(y.1) && sticks.fisica.flat == y.0
      case ErrorExecute =>
        || (sticks.fisica.flat == y.0 && (registros == y.1 || registros == AvanzarPc(y.1)))
        || (registros == y.1 && y.1.pc < |prog| && ParteDe(y.0, sticks.fisica.flat, PasoCpu(Mem(), y.0, y.1, prog[y.1.pc]).memoria))
      case _ => registros == y.1 && sticks.fisica.flat == y.0
    }

    /** Going on from here completes the burst `total`. */
    ghost predicate Falta(total: Rafaga<seq<Byte>>, prog: seq<Instruccion>, quedan: seq<Sondeo>, ejecutadas: nat)
      reads this, mmu, sticks, sticks.fisica
    {
      var resto := Correr(PasoSobre(Mem()), prog, sticks.fisica.flat, registros, quedan);
      total == resto.(ejecutadas := resto.ejecutadas + ejecutadas)
    }
  }
}
