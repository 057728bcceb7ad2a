/** The immutable store of rendered compositions (composition_storage.py), whose calls can fail or be cut short. */
module CompositionStorage {
  import opened Prelude
  import opened Contracts

  const MAX_BYTES := 10 * 1024 * 1024

  /** PNG data, one character for a byte. */
  type Png = string

  const PNG_SIGNATURE: Png := ['\U{89}', 'P', 'N', 'G', '\r', '\n', '\U{1A}', '\n']

  /** SHA-256, taken as injective: the data stand for their own digest. */
  function Sha256(png: Png): string {
    png
  }

  predicate Acceptable(png: Png) {
    PNG_SIGNATURE <= png && 9 <= |png| <= MAX_BYTES
  }

  datatype Record = Record(artifactId: ArtifactId, sha256: string, sizeBytes: nat, expiresAt: int)

  datatype ArtifactError = Unavailable

  function RecordOf(id: ArtifactId, png: Png, expiresAt: int): Record {
    Record(id, Sha256(png), |png|, expiresAt)
  }

  /** What happens to one of the four file operations of save; a write that is cut short may leave its file. */
  datatype Mishap = Smooth | Fails(at: nat) | Crashes(at: nat, torn: bool)

  datatype Step = Succeeded | OsError | Crashed

  /** The outcome of file operation k, which also fails when it would have to replace a file. */
  function StepOf(mishap: Mishap, k: nat, occupied: bool): Step {
    if mishap.Crashes? && mishap.at == k then Crashed
    else if occupied || (mishap.Fails? && mishap.at == k) then OsError
    else Succeeded
  }

  // The files as a value, and what the calls make of them

  /** The files of the two kinds by artifact, and the part files that exist. */
  datatype Stored = Stored(pngs: map<ArtifactId, Png>, records: map<ArtifactId, Record>,
                           pngParts: set<ArtifactId>, recordParts: set<ArtifactId>)

  datatype Event =
    | Saves(id: ArtifactId, png: Png, expiresAt: int, mishap: Mishap)
    | Deletes(id: ArtifactId, crash: bool)

  /** The first file operation of save that does not succeed, or 4. */
  function StopsAt(s: Stored, id: ArtifactId, mishap: Mishap): nat {
    if StepOf(mishap, 0, id in s.pngParts) != Succeeded then 0
    else if StepOf(mishap, 1, id in s.recordParts) != Succeeded then 1
    else if StepOf(mishap, 2, false) != Succeeded then 2
    else if StepOf(mishap, 3, false) != Succeeded then 3
    else 4
  }

  /** The files after the first k operations of save. */
  function Written(s: Stored, id: ArtifactId, png: Png, record: Record, k: nat): Stored {
    if k == 0 then s
    else if k == 1 then s.(pngParts := s.pngParts + {id})
    else if k == 2 then s.(pngParts := s.pngParts + {id}, recordParts := s.recordParts + {id})
    else if k == 3 then s.(pngs := s.pngs[id := png], recordParts := s.recordParts + {id})
    else s.(pngs := s.pngs[id := png], records := s.records[id := record])
  }

  /** What the handler of save leaves: no file of the artifact. */
  function Cleared(s: Stored, id: ArtifactId): Stored {
    Stored(s.pngs - {id}, s.records - {id}, s.pngParts - {id}, s.recordParts - {id})
  }

  function After(s: Stored, event: Event): Stored {
    match event
    case Saves(id, png, expiresAt, mishap) =>
      if !Acceptable(png) || id in s.pngs || id in s.records then s
      else
        var k := StopsAt(s, id, mishap);
        var written := Written(s, id, png, RecordOf(id, png, expiresAt), k);
        if k == 4 then written
        else if !mishap.Crashes? || mishap.at != k then Cleared(s, id)
        else if mishap.torn && k == 0 then written.(pngParts := written.pngParts + {id})
        else if mishap.torn && k == 1 then written.(recordParts := written.recordParts + {id})
        else written
    case Deletes(id, crash) => s.(pngs := s.pngs - {id}, records := if crash then s.records else s.records - {id})
  }

  function AfterAll(s: Stored, events: seq<Event>): Stored {
    if |events| == 0 then s else After(AfterAll(s, events[..|events| - 1]), events[|events| - 1])
  }

  const EMPTY := Stored(map[], map[], {}, {})

  predicate Whole(s: Stored, id: ArtifactId) {
    id in s.pngs && id in s.records
  }

  /** A stored artifact is immutable: only deleting it changes it, whatever else happens, completely or in part. */
  lemma {:induction false} Immutable(s: Stored, events: seq<Event>, id: ArtifactId)
    requires Whole(s, id)
    requires forall i :: 0 <= i < |events| && events[i].Deletes? ==> events[i].id != id
    ensures
      var t := AfterAll(s, events);
      Whole(t, id) && t.pngs[id] == s.pngs[id] && t.records[id] == s.records[id]
  {
    if |events| > 0 {
      Immutable(s, events[..|events| - 1], id);
    }
  }

  /** After any events, interrupted or not, a whole artifact is what one save call was given. */
  lemma {:induction false} SavedByOneCall(events: seq<Event>, id: ArtifactId)
    requires Whole(AfterAll(EMPTY, events), id)
    ensures
      var t := AfterAll(EMPTY, events);
      && Acceptable(t.pngs[id]) && t.records[id] == RecordOf(id, t.pngs[id], t.records[id].expiresAt)
      && exists i ::
           && 0 <= i < |events| && events[i].Saves? && events[i].id == id
           && events[i].png == t.pngs[id] && events[i].expiresAt == t.records[id].expiresAt
  {
    assert |events| > 0;
    var front, last := events[..|events| - 1], events[|events| - 1];
    if Whole(AfterAll(EMPTY, front), id) {
      SavedByOneCall(front, id);
      var i :| 0 <= i < |front| && front[i].Saves? && front[i].id == id
        && front[i].png == AfterAll(EMPTY, front).pngs[id]
        && front[i].expiresAt == AfterAll(EMPTY, front).records[id].expiresAt;
      assert events[i] == front[i];
    } else {
      assert events[|events| - 1] == last;
    }
  }

  /** Part files left by an interrupted save stop the next save of the artifact, and only that one. */
  lemma StalePartsStopOneSave(s: Stored, id: ArtifactId, png: Png, expiresAt: int)
    requires Acceptable(png) && id !in s.pngs && id !in s.records
    ensures
      var once := After(s, Saves(id, png, expiresAt, Smooth));
      && (Whole(once, id) <==> id !in s.pngParts && id !in s.recordParts)
      && Whole(After(once, Saves(id, png, expiresAt, Smooth)), id)
  {
  }

  // The store

  datatype Outcome = Returned(record: Record) | Raised | Ended

  class CompositionArtifactStore {
    var pngs: map<ArtifactId, Png>
    var records: map<ArtifactId, Record>
    var pngParts: set<ArtifactId>
    var recordParts: set<ArtifactId>

    /** Where both files of an artifact exist, they belong together. */
    ghost predicate Valid()
      reads this
    {
      forall id :: id in pngs && id in records ==>
        Acceptable(pngs[id]) && records[id] == RecordOf(id, pngs[id], records[id].expiresAt)
    }

    function Contents(): Stored
      reads this
    {
      Stored(pngs, records, pngParts, recordParts)
    }

    constructor ()
      ensures Valid() && Contents() == EMPTY
    {
      pngs, records, pngParts, recordParts := map[], map[], {}, {};
    }

    /** _load_unlocked: the record and the data are compared with each other before they are returned. */
    method LoadUnlocked(id: ArtifactId, now: int, checkExpiry: bool) returns (r: Result<(Record, Png), ArtifactError>)
      requires Valid()
      ensures r.Ok? <==> Whole(Contents(), id) && (checkExpiry ==> now < records[id].expiresAt)
      ensures r.Ok? ==> r.value == (records[id], pngs[id])
    {
      if id !in records || id !in pngs {
        return Err(Unavailable);
      }
      var record, content := records[id], pngs[id];
      if record.artifactId != id || record.sizeBytes != |content| || record.sizeBytes < 9
         || record.sizeBytes > MAX_BYTES || Sha256(content) != record.sha256 || !(PNG_SIGNATURE <= content)
         || (checkExpiry && record.expiresAt <= now) {
        return Err(Unavailable);
      }
      return Ok((record, content));
    }

    method Load(id: ArtifactId, now: int) returns (r: Result<(Record, Png), ArtifactError>)
      requires Valid()
      ensures r.Ok? <==> Whole(Contents(), id) && now < records[id].expiresAt
      ensures r.Ok? ==> r.value == (records[id], pngs[id])
    {
      r := LoadUnlocked(id, now, true);
    }

    /** The four file operations of save: two exclusive writes of part files and two renames. */
    method WriteFiles(id: ArtifactId, png: Png, record: Record, mishap: Mishap) returns (step: Step)
      requires id !in pngs && id !in records
      modifies this
      ensures
        var k := StopsAt(old(Contents()), id, mishap);
        var written := Written(old(Contents()), id, png, record, k);
        && (step.Succeeded? <==> k == 4) && (step.Crashed? <==> k < 4 && mishap.Crashes? && mishap.at == k)
        && (step.Succeeded? ==> Contents() == written)
        && (step.Crashed? ==>
              Contents() == written.(
                pngParts := if mishap.torn && k == 0 then written.pngParts + {id} else written.pngParts,
                recordParts := if mishap.torn && k == 1 then written.recordParts + {id} else written.recordParts))
        && (step.OsError? ==> Cleared(Contents(), id) == Cleared(old(Contents()), id))
    {
      step := StepOf(mishap, 0, id in pngParts);
      if step.Succeeded? || (step.Crashed? && mishap.torn) {
        pngParts := pngParts + {id};
      }
      if !step.Succeeded? {
        return;
      }
      step := StepOf(mishap, 1, id in recordParts);
      if step.Succeeded? || (step.Crashed? && mishap.torn) {
        recordParts := recordParts + {id};
      }
      if !step.Succeeded? {
        return;
      }
      step := StepOf(mishap, 2, false);
      if !step.Succeeded? {
        return;
      }
      pngs, pngParts := pngs[id := png], pngParts - {id};
      step := StepOf(mishap, 3, false);
      if !step.Succeeded? {
        return;
      }
      records, recordParts := records[id := record], recordParts - {id};
    }

    /** save: the same data again are accepted, other data for a stored artifact are refused. */
    method Save(id: ArtifactId, png: Png, expiresAt: int, mishap: Mishap) returns (r: Outcome)
      requires Valid()
      modifies this
      ensures Valid() && Contents() == After(old(Contents()), Saves(id, png, expiresAt, mishap))
      ensures r.Returned? ==> r.record == RecordOf(id, png, expiresAt)
      ensures r.Returned? <==> Whole(Contents(), id) && pngs[id] == png && records[id] == RecordOf(id, png, expiresAt)
    {
      if !(PNG_SIGNATURE <= png) || |png| < 9 || |png| > MAX_BYTES {
        return Raised;
      }
      var record := RecordOf(id, png, expiresAt);
      if id in pngs || id in records {
        var existing := LoadUnlocked(id, 0, false);
        return if existing == Ok((record, png)) then Returned(record) else Raised;
      }
      var step := WriteFiles(id, png, record, mishap);
      if step.Crashed? {
        return Ended;
      }
      if step.OsError? {
        pngParts, recordParts := pngParts - {id}, recordParts - {id};
        pngs, records := pngs - {id}, records - {id};
        return Raised;
      }
      return Returned(record);
    }

    /** delete: None when it is cut short between the two files. */
    method Delete(id: ArtifactId, crash: bool) returns (removed: Option<bool>)
      requires Valid()
      modifies this
      ensures Valid() && Contents() == After(old(Contents()), Deletes(id, crash))
      ensures removed == if crash then None else Some(id in old(pngs) || id in old(records))
    {
      var any := false;
      if id in pngs {
        pngs := pngs - {id};
        any := true;
      }
      if crash {
        return None;
      }
      if id in records {
        records := records - {id};
        any := true;
      }
      return Some(any);
    }
  }
}
