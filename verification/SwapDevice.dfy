/** The swap process: numbered blocks of a fixed size, reached through requests that may fail. */
module SwapDevice {
  import opened Basics

  class SwapDevice {
    var disco: seq<seq<Byte>>
    var destinos: seq<Destino>   // decided by the environment, one for each coming request
    var averias: nat             // requests that were not served

    constructor (disco: seq<seq<Byte>>, destinos: seq<Destino>)
      ensures this.disco == disco && averias == 0
    {
      this.disco, this.destinos, averias := disco, destinos, 0;
    }

    method Proximo() returns (d: Destino)
      modifies this`destinos, this`averias
      ensures averias == old(averias) + Bit(d != Atendido)
    {
      if destinos == [] {
        d := Atendido;
      } else {
        d, destinos := destinos[0], destinos[1..];
        averias := averias + Bit(d != Atendido);
      }
    }

    method Leer(b: nat) returns (d: Destino, bloque: seq<Byte>)
      requires b < |disco|
      modifies this
      ensures disco == old(disco) && averias == old(averias) + Bit(d != Atendido)
      ensures d == Atendido ==> bloque == disco[b]
    {
      d := Proximo();
      bloque := disco[b];
    }

    method Escribir(b: nat, bloque: seq<Byte>) returns (d: Destino)
      requires b < |disco|
      modifies this
      ensures averias == old(averias) + Bit(d != Atendido)
      ensures disco == if d == Atendido || (d.SinRespuesta? && d.hecho) then old(disco)[b := bloque] else old(disco)
    {
      d := Proximo();
      if d == Atendido || (d.SinRespuesta? && d.hecho) {
        disco := disco[b := bloque];
      }
    }
  }
}
