/** The block size, the erase pattern and the record-kind enumeration shared by
    the block store and the record layouts (include/Ladybug_flash.h). */
module FlashLayout {
  import opened Basics

  /** Bytes in every storage block; one block per stored record kind. */
  const BLOCK_SIZE: nat := 32

  /** Number of blocks registered with the storage service at start-up. */
  const BLOCK_COUNT: nat := 3

  /** What every byte of a cleared block reads as. */
  const ERASED: byte := 0xFF

  /** flash_rw_t: which record a read or write is about. */
  datatype Kind = HydroValues | PlantInfo | DeviceName | CalibrationValues

  /** The C enumerator value of each kind. */
  function KindCode(k: Kind): (n: nat)
    ensures n < 4
  {
    match k
    case HydroValues => 0
    case PlantInfo => 1
    case DeviceName => 2
    case CalibrationValues => 3
  }

  /** The kind an enumerator value denotes, if any. */
  function KindOfCode(n: int): (r: Option<Kind>)
    ensures r.Some? <==> 0 <= n < 4
    ensures r.Some? ==> KindCode(r.value) == n
  {
    if n == 0 then Some(HydroValues)
    else if n == 1 then Some(PlantInfo)
    else if n == 2 then Some(DeviceName)
    else if n == 3 then Some(CalibrationValues)
    else None
  }

  lemma KindCodeRoundTrip(k: Kind)
    ensures KindOfCode(KindCode(k)) == Some(k)
  {
  }

  /** A block as a clear followed by a store of `data` at offset 0 leaves it:
      the stored bytes, then the erase pattern up to the block size. */
  function WrittenBlock(data: seq<byte>): (r: seq<byte>)
    requires |data| <= BLOCK_SIZE
    ensures |r| == BLOCK_SIZE
    ensures r[..|data|] == data
    ensures forall i :: |data| <= i < BLOCK_SIZE ==> r[i] == ERASED
  {
    data + Fill(ERASED, BLOCK_SIZE - |data|)
  }
}
