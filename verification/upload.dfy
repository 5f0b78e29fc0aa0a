/** `upload_fastq_files`: the list of files to transfer, read from the runs
    file, and the FTP commands that store them. */
module Upload {
  import opened Outcomes

  /** A row of the tab-separated runs file as `csv.DictReader` yields it:
      header name to value. */
  type RunRecord = map<string, string>

  const ForwardColumn := "forward_file_name"
  const ReverseColumn := "reverse_file_name"

  /** `row["forward_file_name"]` then `row["reverse_file_name"]`: the two
      files of one run, or the KeyError of the first column it lacks. */
  function RecordFiles(rec: RunRecord): (r: Result<seq<string>>)
    ensures r.Ok? <==> ForwardColumn in rec && ReverseColumn in rec
    ensures r.Ok? ==> r.value == [rec[ForwardColumn], rec[ReverseColumn]]
    ensures r.Err? ==> r.error == KeyError(if ForwardColumn in rec then ReverseColumn else ForwardColumn)
  {
    if ForwardColumn !in rec then Err(KeyError(ForwardColumn))
    else if ReverseColumn !in rec then Err(KeyError(ReverseColumn))
    else Ok([rec[ForwardColumn], rec[ReverseColumn]])
  }

  /** Every record names both files. */
  predicate NamesBothFiles(records: seq<RunRecord>) {
    forall k :: 0 <= k < |records| ==> ForwardColumn in records[k] && ReverseColumn in records[k]
  }

  /** The transfer list: record `k`'s forward file at position `2k` and its
      reverse file at `2k + 1`, or the KeyError of the first record that
      lacks a column. */
  function TransferList(records: seq<RunRecord>): (r: Result<seq<string>>)
    ensures r.Ok? <==> NamesBothFiles(records)
    ensures r.Ok? ==> |r.value| == 2 * |records|
    ensures r.Ok? ==> forall k :: 0 <= k < |records| ==>
      r.value[2 * k] == records[k][ForwardColumn] && r.value[2 * k + 1] == records[k][ReverseColumn]
  {
    if records == [] then Ok([])
    else
      var first :- RecordFiles(records[0]);
      var rest :- TransferList(records[1..]);
      assert forall k :: 1 <= k < |records| ==> records[k] == records[1..][k - 1];
      Ok(first + rest)
  }

  /** A failing list reports the KeyError of the first record that lacks a
      column: every record before it names both files. */
  lemma {:induction false} TransferListFirstFailure(records: seq<RunRecord>)
    requires TransferList(records).Err?
    ensures exists k :: (0 <= k < |records| && NamesBothFiles(records[..k])
      && RecordFiles(records[k]) == Err(TransferList(records).error))
  {
    if RecordFiles(records[0]).Err? {
      assert NamesBothFiles(records[..0]);
    } else {
      var tail := records[1..];
      TransferListFirstFailure(tail);
      var k :| 0 <= k < |tail| && NamesBothFiles(tail[..k]) && RecordFiles(tail[k]) == Err(TransferList(tail).error);
      assert records[k + 1] == tail[k];
      assert NamesBothFiles(records[..k + 1]) by {
        forall m | 0 <= m < k + 1
          ensures ForwardColumn in records[m] && ReverseColumn in records[m]
        {
          if m > 0 {
            assert records[m] == tail[..k][m - 1];
          }
        }
      }
      assert records[..k + 1][..k + 1] == records[..k + 1];
    }
  }

  /** The program's loop, one record at a time, appending its two files. */
  method CollectTransfers(records: seq<RunRecord>) returns (r: Result<seq<string>>)
    ensures r == TransferList(records)
  {
    var files: seq<string> := [];
    var i := 0;
    while i < |records|
      invariant 0 <= i <= |records|
      invariant TransferList(records[..i]) == Ok(files)
    {
      var pair := RecordFiles(records[i]);
      TransferListSnoc(records[..i], records[i]);
      assert records[..i + 1] == records[..i] + [records[i]];
      if pair.Err? {
        TransferListFailurePropagates(records, i + 1);
        return Err(pair.error);
      }
      files := files + pair.value;
      i := i + 1;
    }
    assert records[..i] == records;
    return Ok(files);
  }

  /** Extending the records by one extends a good list by that record's two
      files, and a bad record ends the list with its error. */
  lemma {:induction false} TransferListSnoc(records: seq<RunRecord>, rec: RunRecord)
    requires TransferList(records).Ok?
    ensures TransferList(records + [rec]) ==
      match RecordFiles(rec)
      case Ok(pair) => Ok(TransferList(records).value + pair)
      case Err(e) => Err(e)
  {
    TransferListAppend(records, [rec]);
    TransferListSingle(rec);
  }

  /** The first record, then the rest. */
  lemma TransferListUnfold(records: seq<RunRecord>)
    requires records != []
    ensures TransferList(records) ==
      if RecordFiles(records[0]).Err? then Err(RecordFiles(records[0]).error)
      else if TransferList(records[1..]).Err? then TransferList(records[1..])
      else Ok(RecordFiles(records[0]).value + TransferList(records[1..]).value)
  {
  }

  /** One record's list is that record's two files. */
  lemma TransferListSingle(rec: RunRecord)
    ensures TransferList([rec]) == RecordFiles(rec)
  {
    assert [rec][0] == rec && [rec][1..] == [];
    if RecordFiles(rec).Ok? {
      assert RecordFiles(rec).value + [] == RecordFiles(rec).value;
    }
  }

  /** The list of `a + b` is the list of `a` followed by the list of `b`;
      a failure in `a` is reported before anything in `b` is looked at. */
  lemma {:induction false} TransferListAppend(a: seq<RunRecord>, b: seq<RunRecord>)
    ensures TransferList(a + b) ==
      if TransferList(a).Err? then TransferList(a)
      else if TransferList(b).Err? then TransferList(b)
      else Ok(TransferList(a).value + TransferList(b).value)
    decreases |a|
  {
    if a == [] {
      assert a + b == b;
      if TransferList(b).Ok? {
        assert [] + TransferList(b).value == TransferList(b).value;
      }
    } else {
      assert (a + b)[1..] == a[1..] + b;
      assert (a + b)[0] == a[0];
      TransferListUnfold(a);
      TransferListUnfold(a + b);
      TransferListAppend(a[1..], b);
      if RecordFiles(a[0]).Ok? && TransferList(a[1..]).Ok? && TransferList(b).Ok? {
        var pair, x, y := RecordFiles(a[0]).value, TransferList(a[1..]).value, TransferList(b).value;
        assert pair + (x + y) == (pair + x) + y;
      }
    }
  }

  /** Once a prefix fails, the whole list fails with the same error. */
  lemma TransferListFailurePropagates(records: seq<RunRecord>, i: nat)
    requires i <= |records| && TransferList(records[..i]).Err?
    ensures TransferList(records) == TransferList(records[..i])
  {
    TransferListAppend(records[..i], records[i..]);
    assert records[..i] + records[i..] == records;
  }

  /** The command `ftp.storbinary` sends for each file, in transfer order. */
  function StoreCommands(files: seq<string>): (cmds: seq<string>)
    ensures |cmds| == |files|
    ensures forall i :: 0 <= i < |files| ==> cmds[i] == "STOR " + files[i]
  {
    seq(|files|, i requires 0 <= i < |files| => "STOR " + files[i])
  }

  /** The file a `STOR` command names, read back from the command text;
      `None` for any other text. */
  function StoredFile(cmd: string): (f: Option<string>)
    ensures f.Some? <==> |cmd| >= 5 && cmd[..5] == "STOR "
    ensures f.Some? ==> cmd == "STOR " + f.value
  {
    if |cmd| >= 5 && cmd[..5] == "STOR " then Some(cmd[5..]) else None
  }

  /** The files a sequence of commands stores, in order; `None` if some
      command is not a `STOR`. */
  function StoredFiles(cmds: seq<string>): (r: Option<seq<string>>)
    ensures r.Some? ==> |r.value| == |cmds|
  {
    if cmds == [] then Some([])
    else
      match (StoredFile(cmds[0]), StoredFiles(cmds[1..]))
      case (Some(f), Some(rest)) => Some([f] + rest)
      case _ => None
  }

  /** Reading the files back from the commands gives exactly the transfer
      list, in order: no file is dropped, added or renamed. */
  lemma {:induction false} StoreCommandsRoundTrip(files: seq<string>)
    ensures StoredFiles(StoreCommands(files)) == Some(files)
  {
    if files != [] {
      var cmds := StoreCommands(files);
      assert cmds[1..] == StoreCommands(files[1..]);
      assert StoredFile(cmds[0]) == Some(files[0]);
      StoreCommandsRoundTrip(files[1..]);
      assert [files[0]] + files[1..] == files;
    }
  }

  /** Two runs: the four files go out forward, reverse, forward, reverse. */
  lemma TwoRunsTransferInOrder()
    ensures var a := map[ForwardColumn := "a_1.fq", ReverseColumn := "a_2.fq"];
      var b := map[ForwardColumn := "b_1.fq", ReverseColumn := "b_2.fq", "sample" := "b"];
      TransferList([a, b]) == Ok(["a_1.fq", "a_2.fq", "b_1.fq", "b_2.fq"])
  {
    var a := map[ForwardColumn := "a_1.fq", ReverseColumn := "a_2.fq"];
    var b := map[ForwardColumn := "b_1.fq", ReverseColumn := "b_2.fq", "sample" := "b"];
    TransferListAppend([a], [b]);
    TransferListSingle(a);
    TransferListSingle(b);
    assert [a] + [b] == [a, b];
    assert RecordFiles(a) == Ok(["a_1.fq", "a_2.fq"]);
    assert RecordFiles(b) == Ok(["b_1.fq", "b_2.fq"]);
    assert ["a_1.fq", "a_2.fq"] + ["b_1.fq", "b_2.fq"] == ["a_1.fq", "a_2.fq", "b_1.fq", "b_2.fq"];
  }
}
