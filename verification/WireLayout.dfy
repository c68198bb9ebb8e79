/** Every field of the wire format, as a start offset and a width. */
module WireLayout {
  import opened Results
  import opened Words
  import opened WireErrors
  import opened WireNumbers

  datatype Field = Field(offset: nat, width: nat)

  type Table = seq<Field>

  const WIDE: nat := 32

  const HEADER_LEN: nat := 247

  const HEADER_FIELDS: Table := [
    Field(0, 4), Field(4, 2), Field(6, 2), Field(8, 1), Field(9, 2), Field(11, 4), Field(15, 4),
    Field(19, WIDE), Field(51, WIDE), Field(83, WIDE), Field(115, WIDE), Field(147, 4), Field(151, 8),
    Field(159, WIDE), Field(191, 8), Field(199, 8), Field(207, 8), Field(215, WIDE)]

  const MAGIC_FIELD := HEADER_FIELDS[0]
  const PROTOCOL_VERSION_FIELD := HEADER_FIELDS[1]
  const SCHEMA_VERSION_FIELD := HEADER_FIELDS[2]
  const MESSAGE_TYPE_FIELD := HEADER_FIELDS[3]
  const BODY_HASH_FIELD := HEADER_FIELDS[17]

  const ALLOCATE_FIELDS: Table := [
    Field(0, WIDE), Field(32, 16), Field(48, 16), Field(64, 16), Field(80, 8), Field(88, 8)]

  const RECALL_FIELDS: Table := [
    Field(0, WIDE), Field(32, 16), Field(48, 16), Field(64, 8), Field(72, 8)]

  const REMOTE_REPORT_FIELDS: Table := [
    Field(0, 8), Field(8, 16), Field(24, 16), Field(40, 16), Field(56, 16), Field(72, WIDE),
    Field(104, 1), Field(105, 8), Field(113, 8), Field(121, WIDE)]

  const RECALL_SENT_FIELDS: Table := [
    Field(0, WIDE), Field(32, 16), Field(48, 16), Field(64, 16), Field(80, WIDE), Field(112, 8), Field(120, 8)]

  const CONFIG_UPDATE_FIELDS: Table := [
    Field(0, 8), Field(8, 8), Field(16, 2), Field(18, 2), Field(20, 2), Field(22, 8), Field(30, 8), Field(38, WIDE)]

  const RESOLVE_FIELDS: Table := [Field(0, WIDE), Field(32, 8), Field(40, 1), Field(41, 8)]

  const TRANSPORT_SETTLEMENT_FIELDS: Table := [
    Field(0, WIDE), Field(32, 1), Field(33, 16), Field(49, 16), Field(65, 16), Field(81, 8)]

  const BODY_WIDTHS: seq<nat> := [96, 80, 153, 128, 70, 49, 89]

  const MAX_BODY_LEN: nat := 153
  const MAX_MESSAGE_LEN: nat := 400

  /** The fields touch without gaps and fill the region from `start` to `end`. */
  predicate Fills(table: Table, start: nat, end: nat) {
    if table == [] then start == end
    else table[0].offset == start && 0 < table[0].width && Fills(table[1..], start + table[0].width, end)
  }

  /** Where the field after the `i`-th starts. */
  function After(table: Table, i: nat, end: nat): nat {
    if i + 1 < |table| then table[i + 1].offset else end
  }

  /** The same, field by field: each starts where the one before it ends. */
  lemma {:induction false} FillsByIndex(table: Table, start: nat, end: nat)
    requires table != [] && table[0].offset == start
    requires forall i :: 0 <= i < |table| ==>
      0 < table[i].width && table[i].offset + table[i].width == After(table, i, end)
    ensures Fills(table, start, end)
  {
    var rest := table[1..];
    assert After(table, 0, end) == start + table[0].width;
    if |table| > 1 {
      forall i | 0 <= i < |rest|
        ensures 0 < rest[i].width && rest[i].offset + rest[i].width == After(rest, i, end)
      {
        assert rest[i] == table[i + 1] && After(rest, i, end) == After(table, i + 1, end);
      }
      FillsByIndex(rest, start + table[0].width, end);
    }
  }

  lemma {:induction false} FillsAppend(table: Table, field: Field, start: nat, end: nat)
    ensures Fills(table + [field], start, end) <==>
      field.width > 0 && field.offset + field.width == end && Fills(table, start, field.offset)
  {
    if table == [] {
      assert (table + [field])[1..] == [];
    } else {
      assert (table + [field])[1..] == table[1..] + [field];
      FillsAppend(table[1..], field, start + table[0].width, end);
    }
  }

  lemma {:induction false} FillsFrom(table: Table, start: nat, end: nat, i: nat)
    requires Fills(table, start, end) && i < |table|
    ensures Fills(table[..i], start, table[i].offset) && table[i].width > 0
  {
    if i > 0 {
      FillsFrom(table[1..], start + table[0].width, end, i - 1);
      assert table[..i][1..] == table[1..][..i - 1];
    }
  }

  method IsContiguous(table: Table, total: nat) returns (r: bool)
    ensures r <==> Fills(table, 0, total)
  {
    var expected: nat, index: nat := 0, 0;
    while index < |table|
      invariant index <= |table|
      invariant Fills(table[..index], 0, expected)
    {
      var field := table[index];
      if field.offset != expected || field.width == 0 {
        if Fills(table, 0, total) {
          FillsFrom(table, 0, total, index);
          FillsEndUnique(table[..index], 0, expected, field.offset);
        }
        return false;
      }
      FillsAppend(table[..index], field, 0, expected + field.width);
      assert table[..index + 1] == table[..index] + [field];
      expected := expected + field.width;
      index := index + 1;
    }
    assert table[..index] == table;
    if Fills(table, 0, total) {
      FillsEndUnique(table, 0, expected, total);
    }
    return expected == total;
  }

  lemma {:induction false} FillsEndUnique(table: Table, start: nat, a: nat, b: nat)
    requires Fills(table, start, a) && Fills(table, start, b)
    ensures a == b
  {
    if table != [] {
      FillsEndUnique(table[1..], start + table[0].width, a, b);
    }
  }

  method AllDistinct(widths: seq<nat>) returns (r: bool)
    ensures r <==> forall i, j :: 0 <= i < j < |widths| ==> widths[i] != widths[j]
  {
    var left := 0;
    while left < |widths|
      invariant 0 <= left <= |widths|
      invariant forall i, j :: 0 <= i < left && i < j < |widths| ==> widths[i] != widths[j]
    {
      var right := left + 1;
      while right < |widths|
        invariant left < right <= |widths|
        invariant forall j :: left < j < right ==> widths[left] != widths[j]
      {
        if widths[left] == widths[right] {
          return false;
        }
        right := right + 1;
      }
      left := left + 1;
    }
    return true;
  }

  // Reading and concatenating the values of a table.

  ghost predicate Fits(values: seq<nat>, table: Table) {
    |values| == |table| && forall i :: 0 <= i < |table| ==> values[i] < Limit(table[i].width)
  }

  /** The values of a table, one after the other. */
  ghost function Concat(values: seq<nat>, table: Table): Bytes
    requires |values| == |table|
  {
    if table == [] then [] else BigEndian(table[0].width, values[0]) + Concat(values[1..], table[1..])
  }

  lemma {:induction false} ConcatLength(values: seq<nat>, table: Table, start: nat, end: nat)
    requires |values| == |table| && Fills(table, start, end)
    ensures start + |Concat(values, table)| == end
    decreases |table|
  {
    if table != [] {
      ConcatLength(values[1..], table[1..], start + table[0].width, end);
    }
  }

  lemma {:induction false} ConcatAppend(values: seq<nat>, table: Table, v: nat, field: Field)
    requires |values| == |table|
    ensures Concat(values + [v], table + [field]) == Concat(values, table) + BigEndian(field.width, v)
    decreases |table|
  {
    if table == [] {
      assert (table + [field])[1..] == [];
    } else {
      assert (table + [field])[1..] == table[1..] + [field];
      assert (values + [v])[1..] == values[1..] + [v];
      ConcatAppend(values[1..], table[1..], v, field);
    }
  }

  function Window(bytes: Bytes, offset: nat, width: nat): (r: Result<Bytes, DecodeError>)
    ensures r.Ok? ==> |r.value| == width
  {
    if offset + width <= |bytes| then Ok(bytes[offset..offset + width])
    else Err(Truncated(SaturatingU32(offset + width), SaturatingU32(|bytes|)))
  }

  function Read(bytes: Bytes, field: Field): (r: Result<nat, DecodeError>)
    ensures r.Ok? ==> r.value < Limit(field.width)
  {
    var slice :- Window(bytes, field.offset, field.width);
    NumberFits(slice);
    LimitIsPower(field.width);
    Ok(FromBigEndian(slice))
  }

  function ReadU16(bytes: Bytes, offset: nat): Result<U16, DecodeError> {
    var v :- Read(bytes, Field(offset, 2));
    Ok(v)
  }

  function ReadU32(bytes: Bytes, offset: nat): Result<U32, DecodeError> {
    var v :- Read(bytes, Field(offset, 4));
    Ok(v)
  }

  function ReadU64(bytes: Bytes, offset: nat): Result<U64, DecodeError> {
    var v :- Read(bytes, Field(offset, 8));
    Ok(v)
  }

  function ReadWide(bytes: Bytes, offset: nat): Result<U256, DecodeError> {
    var v :- Read(bytes, Field(offset, WIDE));
    Ok(v)
  }

  /** Every field of a table, read at its own offset. */
  function ReadAll(bytes: Bytes, table: Table): (r: Result<seq<nat>, DecodeError>)
    ensures r.Ok? ==> Fits(r.value, table)
  {
    if table == [] then Ok([]) else
      var first :- Read(bytes, table[0]);
      var rest :- ReadAll(bytes, table[1..]);
      Ok([first] + rest)
  }

  /** One field, read from its own bytes. */
  lemma FieldInverts(bytes: Bytes, field: Field, value: nat)
    requires field.offset + field.width <= |bytes|
    ensures Read(bytes, field) == Ok(value) <==>
      value < Limit(field.width) && bytes[field.offset..field.offset + field.width] == BigEndian(field.width, value)
  {
    var head := bytes[field.offset..field.offset + field.width];
    NumberFits(head);
    LimitIsPower(field.width);
    BytesRoundTrip(head);
    if value < Limit(field.width) {
      NumberRoundTrip(field.width, value);
    }
  }

  lemma ReadAllSplits(bytes: Bytes, table: Table, values: seq<nat>)
    requires table != []
    ensures ReadAll(bytes, table) == Ok(values) <==>
      values != [] && Read(bytes, table[0]) == Ok(values[0]) && ReadAll(bytes, table[1..]) == Ok(values[1..])
  {
    hide Read;
    if values != [] {
      assert values == [values[0]] + values[1..];
    }
  }

  lemma ConcatSplits(part: Bytes, table: Table, values: seq<nat>)
    requires table != [] && |values| == |table| && table[0].width <= |part|
    ensures part == Concat(values, table) <==>
      && part[..table[0].width] == BigEndian(table[0].width, values[0])
      && part[table[0].width..] == Concat(values[1..], table[1..])
  {
    hide BigEndian;
    var first, rest := BigEndian(table[0].width, values[0]), Concat(values[1..], table[1..]);
    assert part == part[..table[0].width] + part[table[0].width..];
    assert (first + rest)[..table[0].width] == first && (first + rest)[table[0].width..] == rest;
  }

  lemma NothingInverts(bytes: Bytes, start: nat, values: seq<nat>)
    requires start <= |bytes|
    ensures ReadAll(bytes, []) == Ok(values) <==>
      Fits(values, []) && bytes[start..start] == Concat(values, [])
  {
  }

  /** A table's first field in front of the others. */
  lemma FirstInverts(bytes: Bytes, table: Table, start: nat, end: nat, values: seq<nat>)
    requires table != [] && |values| == |table|
    requires table[0].offset == start && start + table[0].width <= end <= |bytes|
    ensures Fits(values, table) && bytes[start..end] == Concat(values, table) <==>
      && Read(bytes, table[0]) == Ok(values[0])
      && Fits(values[1..], table[1..]) && bytes[start + table[0].width..end] == Concat(values[1..], table[1..])
  {
    hide Read;
    hide BigEndian;
    hide Concat;
    hide Fits;
    FieldInverts(bytes, table[0], values[0]);
    ConcatSplits(bytes[start..end], table, values);
    SliceSplits(bytes, start, table[0].width, end);
    FitsSplits(values, table);
  }

  /** Splitting a region at its table and concatenating the values are inverse, both ways. */
  lemma {:induction false} ReadInvertsConcat(bytes: Bytes, table: Table, start: nat, end: nat, values: seq<nat>)
    requires Fills(table, start, end) && start <= end <= |bytes|
    ensures ReadAll(bytes, table) == Ok(values) <==>
      Fits(values, table) && bytes[start..end] == Concat(values, table)
    decreases |table|
  {
    hide Read;
    hide Concat;
    hide ReadAll;
    if table == [] {
      NothingInverts(bytes, start, values);
    } else {
      FillsOrdered(table[1..], start + table[0].width, end);
      ReadAllSplits(bytes, table, values);
      if |values| == |table| {
        hide Fits;
        FirstInverts(bytes, table, start, end, values);
        ReadInvertsConcat(bytes, table[1..], start + table[0].width, end, values[1..]);
      }
    }
  }

  lemma SliceSplits(bytes: Bytes, start: nat, width: nat, end: nat)
    requires start + width <= end <= |bytes|
    ensures bytes[start..end][..width] == bytes[start..start + width]
    ensures bytes[start..end][width..] == bytes[start + width..end]
  {
  }

  lemma FitsSplits(values: seq<nat>, table: Table)
    requires table != [] && |values| == |table|
    ensures Fits(values, table) <==> values[0] < Limit(table[0].width) && Fits(values[1..], table[1..])
  {
    if values[0] < Limit(table[0].width) && Fits(values[1..], table[1..]) {
      forall i | 0 <= i < |table|
        ensures values[i] < Limit(table[i].width)
      {
        if i > 0 {
          assert values[1..][i - 1] < Limit(table[1..][i - 1].width);
        }
      }
    }
  }

  lemma {:induction false} FillsOrdered(table: Table, start: nat, end: nat)
    requires Fills(table, start, end)
    ensures start <= end
  {
    if table != [] {
      FillsOrdered(table[1..], start + table[0].width, end);
    }
  }

  lemma {:induction false} ReadAllAt(bytes: Bytes, table: Table, i: nat)
    requires ReadAll(bytes, table).Ok? && i < |table|
    ensures Read(bytes, table[i]) == Ok(ReadAll(bytes, table).value[i])
  {
    hide Read;
    if i > 0 {
      ReadAllAt(bytes, table[1..], i - 1);
    }
  }

  lemma {:induction false} ReadsAll(bytes: Bytes, table: Table, start: nat, end: nat)
    requires Fills(table, start, end) && end <= |bytes|
    ensures ReadAll(bytes, table).Ok?
  {
    if table != [] {
      FillsOrdered(table[1..], start + table[0].width, end);
      ReadsAll(bytes, table[1..], start + table[0].width, end);
    }
  }
}
