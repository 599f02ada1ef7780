/** The reconciliation journal: write-once terminal records (runtime/reconciliation_journal.py), and the
    evidence rule read off them (runtime/recovery_policy.py:45-52). */
module ReconciliationJournal {
  import opened Base

  datatype Status = Pending | Terminal(ok: bool) | Unknown(text: string)

  /** A raw record; `valid` says that it passes the reader's shape and schema checks. */
  datatype Record = Record(key: string, executionId: Option<string>, status: Status, result: Value, valid: bool)

  type Records = map<string, Record>

  datatype JournalError = InvalidRecord

  function Fresh(key: string, executionId: Option<string>, status: Status, result: Value): Record {
    Record(key, executionId, status, result, true)
  }

  function Begun(d: Records, key: string, executionId: Option<string>): Records {
    if key in d then d else d[key := Fresh(key, executionId, Pending, Null)]
  }

  /** `complete` and `fail`: the first terminal record stays. */
  function Concluded(d: Records, key: string, ok: bool, result: Value): Records {
    if key in d && d[key].status.Terminal? then d
    else d[key := Fresh(key, if key in d then d[key].executionId else None, Terminal(ok), result)]
  }

  /** Only a durable terminal record is evidence. */
  function Evidence(r: Option<Record>): Option<bool> {
    if r.Some? && r.value.status.Terminal? then Some(r.value.status.ok) else None
  }

  function Checked(r: Record): Result<Record, JournalError> {
    if r.valid then Success(r) else Failure(InvalidRecord)
  }

  predicate Opens(d: Records, key: string, executionId: Option<string>, d': Records) {
    && key in d' && d' == d[key := d'[key]]
    && d'[key].key == key && d'[key].status == Pending && d'[key].result == Null && d'[key].valid
    && d'[key].executionId == executionId
  }

  /** The first terminal record stays; any other record of the key gives way to the verdict and the result, and
      keeps only its execution. */
  predicate Concludes(d: Records, key: string, ok: bool, result: Value, d': Records) {
    if key in d && d[key].status.Terminal? then d' == d
    else
      && key in d' && d' == d[key := d'[key]]
      && d'[key].key == key && d'[key].status == Terminal(ok) && d'[key].result == result && d'[key].valid
      && d'[key].executionId == (if key in d then d[key].executionId else None)
  }

  class Journal {
    var data: Records

    constructor ()
      ensures data == map[]
    {
      data := map[];
    }

    method Get(key: string) returns (r: Result<Option<Record>, JournalError>)
      ensures r == if key !in data then Success(None) else if data[key].valid then Success(Some(data[key])) else Failure(InvalidRecord)
    {
      if key !in data { return Success(None); }
      if !data[key].valid { return Failure(InvalidRecord); }
      return Success(Some(data[key]));
    }

    method Begin(key: string, executionId: Option<string>) returns (r: Result<Record, JournalError>)
      modifies this`data
      ensures data == Begun(old(data), key, executionId)
      ensures key in old(data) ==> data == old(data)
      ensures key !in old(data) ==> Opens(old(data), key, executionId, data)
      ensures r == Checked(data[key])
    {
      if key in data { return Checked(data[key]); }
      var record := Fresh(key, executionId, Pending, Null);
      data := data[key := record];
      return Success(record);
    }

    method Conclude(key: string, ok: bool, result: Value) returns (r: Result<Record, JournalError>)
      modifies this`data
      ensures data == Concluded(old(data), key, ok, result)
      ensures Concludes(old(data), key, ok, result, data)
      ensures r == Checked(data[key])
    {
      if key in data && data[key].status.Terminal? { return Checked(data[key]); }
      var record := Fresh(key, if key in data then data[key].executionId else None, Terminal(ok), result);
      data := data[key := record];
      return Success(record);
    }
  }

  /** A terminal record is the journal's last word on its key, whatever is begun or concluded later; and its
      verdict is the evidence every reader gets. */
  lemma TerminalRecordsStay(d: Records, key: string, other: string, executionId: Option<string>, ok: bool, result: Value)
    requires key in d && d[key].status.Terminal?
    ensures var d1 := Begun(d, other, executionId); var d2 := Concluded(d1, other, ok, result);
      key in d2 && d2[key] == d[key] && Evidence(Some(d2[key])) == Some(d[key].status.ok)
  {
  }

  /** So of any conclusions the first one counts, with its result, and only then is there evidence. */
  lemma FirstConclusionCounts(d: Records, key: string, executionId: Option<string>, ok: bool, result: Value, ok2: bool, result2: Value)
    requires key !in d
    ensures var d1 := Begun(d, key, executionId);
      var d3 := Concluded(Concluded(d1, key, ok, result), key, ok2, result2);
      && key in d1 && Evidence(Some(d1[key])) == None && d1[key].executionId == executionId
      && key in d3 && d3[key].status == Terminal(ok) && d3[key].result == result && d3[key].executionId == executionId
      && Evidence(Some(d3[key])) == Some(ok)
  {
  }
}
