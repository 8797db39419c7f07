/** ReadableWriteBatch::GetEntryFromDataOffset
    (utilities/write_batch_with_index/write_batch_with_index_internal.cc):
    the offset checks and the map from a record's tag to the kind of write
    the index records. Record decoding (ReadRecordFromWriteBatch) is a
    parameter. */
module WriteBatchEntry {
  import opened Wrappers
  import opened RocksStatus
  import Decimal

  type byte = b: int | 0 <= b < 256
  type Bytes = seq<byte>

  // The record tags of the WriteBatch format (ValueType).
  const kTypeDeletion: byte := 0x0
  const kTypeValue: byte := 0x1
  const kTypeMerge: byte := 0x2
  const kTypeLogData: byte := 0x3
  const kTypeColumnFamilyDeletion: byte := 0x4
  const kTypeColumnFamilyValue: byte := 0x5
  const kTypeColumnFamilyMerge: byte := 0x6
  const kTypeSingleDeletion: byte := 0x7
  const kTypeColumnFamilySingleDeletion: byte := 0x8
  const kTypeBeginPrepareXID: byte := 0x9
  const kTypeEndPrepareXID: byte := 0xA
  const kTypeCommitXID: byte := 0xB
  const kTypeRollbackXID: byte := 0xC
  const kTypeNoop: byte := 0xD
  const kTypeColumnFamilyRangeDeletion: byte := 0xE
  const kTypeRangeDeletion: byte := 0xF
  const kTypeBeginPersistedPrepareXID: byte := 0x12
  const kTypeBeginUnprepareXID: byte := 0x13

  /** The kind of write an index entry records (WriteType), in enum order. */
  datatype WriteType =
    | PutRecord
    | MergeRecord
    | DeleteRecord
    | SingleDeleteRecord
    | DeleteRangeRecord
    | LogDataRecord
    | XIDRecord
    | UnknownRecord
  {
    /** The enumerator's value, as ToString prints it. */
    function Code(): (n: nat)
      ensures n < 8
    {
      match this
      case PutRecord => 0
      case MergeRecord => 1
      case DeleteRecord => 2
      case SingleDeleteRecord => 3
      case DeleteRangeRecord => 4
      case LogDataRecord => 5
      case XIDRecord => 6
      case UnknownRecord => 7
    }
  }

  /** The switch of GetEntryFromDataOffset: None for the default branch. */
  function TagToWriteType(tag: byte): (r: Option<WriteType>)
    ensures r != Some(UnknownRecord)
    ensures r.Some? <==> tag <= 0x0F || tag == 0x12 || tag == 0x13
  {
    if tag == kTypeColumnFamilyValue || tag == kTypeValue then Some(PutRecord)
    else if tag == kTypeColumnFamilyDeletion || tag == kTypeDeletion then Some(DeleteRecord)
    else if tag == kTypeColumnFamilySingleDeletion || tag == kTypeSingleDeletion then Some(SingleDeleteRecord)
    else if tag == kTypeColumnFamilyRangeDeletion || tag == kTypeRangeDeletion then Some(DeleteRangeRecord)
    else if tag == kTypeColumnFamilyMerge || tag == kTypeMerge then Some(MergeRecord)
    else if tag == kTypeLogData then Some(LogDataRecord)
    else if tag == kTypeNoop || tag == kTypeBeginPrepareXID || tag == kTypeBeginPersistedPrepareXID ||
            tag == kTypeBeginUnprepareXID || tag == kTypeEndPrepareXID || tag == kTypeCommitXID ||
            tag == kTypeRollbackXID then Some(XIDRecord)
    else None
  }

  /** The tags of each kind, listed independently of the switch. */
  function TagsOf(t: WriteType): set<byte> {
    match t
    case PutRecord => {kTypeValue, kTypeColumnFamilyValue}
    case MergeRecord => {kTypeMerge, kTypeColumnFamilyMerge}
    case DeleteRecord => {kTypeDeletion, kTypeColumnFamilyDeletion}
    case SingleDeleteRecord => {kTypeSingleDeletion, kTypeColumnFamilySingleDeletion}
    case DeleteRangeRecord => {kTypeRangeDeletion, kTypeColumnFamilyRangeDeletion}
    case LogDataRecord => {kTypeLogData}
    case XIDRecord => {kTypeNoop, kTypeBeginPrepareXID, kTypeEndPrepareXID, kTypeCommitXID,
                       kTypeRollbackXID, kTypeBeginPersistedPrepareXID, kTypeBeginUnprepareXID}
    case UnknownRecord => {}
  }

  /** The switch agrees with the table in both directions. */
  lemma TagToWriteTypeMatchesTable(tag: byte, t: WriteType)
    ensures TagToWriteType(tag) == Some(t) <==> tag in TagsOf(t)
  {
  }

  /** A column-family record and its default-family counterpart are the
      same kind of write. */
  lemma ColumnFamilyVariantsAgree()
    ensures TagToWriteType(kTypeColumnFamilyValue) == TagToWriteType(kTypeValue) == Some(PutRecord)
    ensures TagToWriteType(kTypeColumnFamilyDeletion) == TagToWriteType(kTypeDeletion) == Some(DeleteRecord)
    ensures TagToWriteType(kTypeColumnFamilySingleDeletion) == TagToWriteType(kTypeSingleDeletion) == Some(SingleDeleteRecord)
    ensures TagToWriteType(kTypeColumnFamilyRangeDeletion) == TagToWriteType(kTypeRangeDeletion) == Some(DeleteRangeRecord)
    ensures TagToWriteType(kTypeColumnFamilyMerge) == TagToWriteType(kTypeMerge) == Some(MergeRecord)
  {
  }

  /** static_cast<unsigned int> of a plain char on a target where char is
      signed: a tag of 0x80 or more is sign-extended to 32 bits. */
  function UnsignedTag(tag: byte): (n: nat)
    ensures tag < 0x80 ==> n == tag
    ensures tag >= 0x80 ==> n == 0x1_0000_0000 - 0x100 + tag
    ensures n < 0x1_0000_0000 && n % 0x100 == tag
  {
    if tag < 0x80 then tag else tag + 0xFFFF_FF00
  }

  /** The fields ReadRecordFromWriteBatch writes through Key, value, blob and xid. */
  datatype RecordFields = RecordFields(key: Bytes, value: Bytes, blob: Bytes, xid: Bytes)

  /** What ReadRecordFromWriteBatch yields for the bytes from the offset on. */
  datatype DecodedRecord = DecodedRecord(status: Status, tag: byte, columnFamily: nat, fields: RecordFields)

  /** Which of the five output pointers are non-null. */
  datatype OutputPointers = OutputPointers(typeOut: bool, keyOut: bool, valueOut: bool, blobOut: bool, xidOut: bool) {
    predicate AllSet() {
      typeOut && keyOut && valueOut && blobOut && xidOut
    }
  }

  /** The returned status and what was written through the pointers: the
      WriteType (None when *type is left alone) and the record fields (None
      when the record was not read). */
  datatype EntryRead = EntryRead(status: Status, wtype: Option<WriteType>, fields: Option<RecordFields>)

  const NullOutputError: Status := Status(InvalidArgument, "Output parameters cannot be null")
  const OffsetError: Status := Status(InvalidArgument, "data offset exceed write batch size")

  function UnknownTagError(tag: byte): Status {
    Status(Corruption, Joined("unknown WriteBatch tag ", Decimal.Digits(UnsignedTag(tag))))
  }

  /** GetEntryFromDataOffset over the batch's bytes rep (GetDataSize() is |rep|). */
  function GetEntryFromDataOffset(rep: Bytes, dataOffset: nat, outs: OutputPointers, readRecord: Bytes -> DecodedRecord)
    : (r: EntryRead)
    ensures !outs.AllSet() ==> r == EntryRead(NullOutputError, None, None)
    ensures outs.AllSet() && dataOffset == |rep| ==> r == EntryRead(Status(NotFound, ""), None, None)
    ensures outs.AllSet() && dataOffset > |rep| ==> r == EntryRead(OffsetError, None, None)
    ensures outs.AllSet() && dataOffset < |rep| ==>
              var rec := readRecord(rep[dataOffset..]);
              r.fields == Some(rec.fields) && r.wtype == TagToWriteType(rec.tag) &&
              (r.status.IsOk() <==> TagToWriteType(rec.tag).Some?)
    ensures r.status.IsOk() ==> r.wtype.Some? && r.fields.Some? && dataOffset < |rep|
  {
    if !outs.AllSet() then EntryRead(NullOutputError, None, None)
    else if dataOffset == |rep| then EntryRead(Status(NotFound, ""), None, None)
    else if dataOffset > |rep| then EntryRead(OffsetError, None, None)
    else
      var rec := readRecord(rep[dataOffset..]);
      match TagToWriteType(rec.tag)
      case Some(t) => EntryRead(OK, Some(t), Some(rec.fields))
      case None => EntryRead(UnknownTagError(rec.tag), None, Some(rec.fields))
  }

  /** The decoder's own status is discarded: two decoders that agree on the
      tag and the fields give the same answer, whatever status each reports. */
  lemma DecoderStatusIgnored(rep: Bytes, dataOffset: nat, outs: OutputPointers,
                             read1: Bytes -> DecodedRecord, read2: Bytes -> DecodedRecord)
    requires dataOffset < |rep|
    requires read1(rep[dataOffset..]).tag == read2(rep[dataOffset..]).tag
    requires read1(rep[dataOffset..]).fields == read2(rep[dataOffset..]).fields
    ensures GetEntryFromDataOffset(rep, dataOffset, outs, read1) == GetEntryFromDataOffset(rep, dataOffset, outs, read2)
  {
  }

  /** An unknown tag is reported as Corruption naming the tag in decimal,
      and the number named is the tag's sign-extended value. */
  lemma UnknownTagIsCorruption(rep: Bytes, dataOffset: nat, outs: OutputPointers, readRecord: Bytes -> DecodedRecord)
    requires outs.AllSet() && dataOffset < |rep|
    requires TagToWriteType(readRecord(rep[dataOffset..]).tag).None?
    ensures var tag := readRecord(rep[dataOffset..]).tag;
            var r := GetEntryFromDataOffset(rep, dataOffset, outs, readRecord);
            r.status.code == Corruption && r.wtype.None? &&
            r.status.msg == "unknown WriteBatch tag : " + Decimal.Digits(UnsignedTag(tag)) &&
            Decimal.Value(r.status.msg[|"unknown WriteBatch tag : "|..]) == UnsignedTag(tag)
  {
    var tag := readRecord(rep[dataOffset..]).tag;
    var msg := GetEntryFromDataOffset(rep, dataOffset, outs, readRecord).status.msg;
    assert msg[|"unknown WriteBatch tag : "|..] == Decimal.Digits(UnsignedTag(tag));
    Decimal.ValueOfDigits(UnsignedTag(tag));
  }
}
