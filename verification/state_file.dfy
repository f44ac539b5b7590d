/**
 * The handshake state file `state.json`, as both sides read and write it.
 *
 * The generator (`_read_state` / `_write_state` in the daily predictor)
 * and the venue script (`_read_state` / `_write_state` of the iQuant
 * script) treat the file alike: a missing or unreadable file reads as the
 * empty dict, and a write replaces the whole file, atomically, with
 * `{"phase", "version", "timestamp"}` updated by the extra fields. The
 * JSON round trip and the atomic rename are taken as given: what is
 * written is what the next read returns.
 */
module StateFile {
  import opened Common

  /** A JSON value stored under a key: a string, or something else with its truthiness. */
  datatype StateValue = Str(s: string) | NonString(truthy: bool)

  /** What `json.load` returns: a dict, or any other JSON value. */
  datatype StateDoc = Obj(fields: map<string, StateValue>) | NotObject

  /** The file on disk. */
  datatype StoredState = Absent | Unreadable | Stored(doc: StateDoc)

  /** `_read_state`: the parsed document, or `{}` when the file is missing or does not parse. */
  function ReadState(f: StoredState): StateDoc {
    if f.Stored? then f.doc else Obj(map[])
  }

  /** `st.get(key)` on a dict. */
  function Get(fields: map<string, StateValue>, key: string): Option<StateValue> {
    if key in fields then Some(fields[key]) else None
  }

  /** Python truthiness of `st.get(key)`: `None` and `""` are false. */
  predicate Truthy(v: Option<StateValue>) {
    v.Some? && (if v.value.Str? then v.value.s != "" else v.value.truthy)
  }

  /** The document `_write_state` writes: phase, version and timestamp, then `update(extra)`. */
  function StateData(phase: string, version: StateValue, timestamp: string, extra: map<string, StateValue>): StateDoc {
    Obj(map["phase" := Str(phase), "version" := version, "timestamp" := Str(timestamp)] + extra)
  }

  /** `_write_state`: the file holds the new document, whatever it held before. */
  function WriteState(phase: string, version: StateValue, timestamp: string, extra: map<string, StateValue>): StoredState {
    Stored(StateData(phase, version, timestamp, extra))
  }

  /** The document carries exactly this phase and version, both as strings. */
  predicate Reached(d: StateDoc, phase: string, version: string) {
    d.Obj? && Get(d.fields, "phase") == Some(Str(phase)) && Get(d.fields, "version") == Some(Str(version))
  }

  /**
   * Reading back a written state gives its phase and version, unless the
   * extra fields override them, and every extra field; the keys are the
   * three standard ones and the extra ones.
   */
  lemma WrittenStateReadsBack(phase: string, version: StateValue, timestamp: string, extra: map<string, StateValue>)
    ensures var d := ReadState(WriteState(phase, version, timestamp, extra));
      d.Obj? && d.fields.Keys == {"phase", "version", "timestamp"} + extra.Keys &&
      ("phase" !in extra ==> Get(d.fields, "phase") == Some(Str(phase))) &&
      ("version" !in extra ==> Get(d.fields, "version") == Some(version)) &&
      (forall k :: k in extra ==> Get(d.fields, k) == Some(extra[k]))
  {
  }

  /** With extra fields that leave phase and version alone, a written state has reached its own phase and version. */
  lemma WrittenStateReached(phase: string, version: string, timestamp: string, extra: map<string, StateValue>)
    requires "phase" !in extra && "version" !in extra
    ensures Reached(ReadState(WriteState(phase, Str(version), timestamp, extra)), phase, version)
    ensures forall p, v :: Reached(ReadState(WriteState(phase, Str(version), timestamp, extra)), p, v) ==> p == phase && v == version
  {
    WrittenStateReadsBack(phase, Str(version), timestamp, extra);
  }

  /** A missing or unreadable file, and any document that is not a dict, never reach a phase. */
  lemma NothingReachedWithoutDocument(f: StoredState, phase: string, version: string)
    requires !f.Stored? || f.doc.NotObject? || "phase" !in f.doc.fields
    ensures !Reached(ReadState(f), phase, version)
  {
  }
}
