/** PosixWriter (include/log_writer.h): write(2) may take any part of what it is given. */
module LogWriters {
  import opened LogFormats

  class PosixWriter {
    var data: seq<Byte>     // what the run has written
    var synced: nat         // how much of it fsync has made durable

    ghost predicate Valid()
      reads this
    {
      synced <= |data|
    }

    constructor ()
      ensures Valid() && data == [] && synced == 0
    {
      data, synced := [], 0;
    }

    /** False where the code aborts. Whatever pieces the kernel takes, the file grows by exactly the
        bytes given, or the program ends in the middle of them. */
    method Write(logData: seq<Byte>) returns (ok: bool)
      requires Valid()
      modifies this`data
      ensures Valid() && old(data) <= data <= old(data) + logData
      ensures ok == (data == old(data) + logData)
    {
      var s := 0;
      while s < |logData|
        invariant 0 <= s <= |logData| && data == old(data) + logData[..s]
      {
        var r: int :| -1 <= r <= |logData| - s;     // write(2)
        if r <= 0 { return false; }
        assert logData[..s] + logData[s..s + r] == logData[..s + r];
        data := data + logData[s..s + r];
        s := s + r;
      }
      assert logData[..s] == logData;
      return true;
    }

    method Sync()
      requires Valid()
      modifies this`synced
      ensures Valid() && synced == |data|
    {
      synced := |data|;
    }
  }
}
