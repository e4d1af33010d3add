/** The order in which the plate-name terms are joined, one list for hard
    and one for soft plates (src/lib/terminologyConfig.ts), kept in a single
    storage slot. */
module Terminology {
  import opened Wrappers
  import opened Seqs

  /** A list entry as stored: `None` for `null`. */
  type Entry = Option<string>

  const SCREEN: string := "保护屏"
  const ISSUE: string := "设备间隔"
  const NAME: string := "压板名称"

  const DEFAULT_ORDER: seq<Entry> := [Some(SCREEN), Some(ISSUE), Some(NAME)]

  datatype Config = Config(hard: seq<Entry>, soft: seq<Entry>)

  /** What a list of the caller's config may be: missing, or a list. */
  datatype ConfigInput = ConfigInput(hard: Option<seq<Entry>>, soft: Option<seq<Entry>>)

  /** One member of the parsed object: missing, something other than an array, or an array. */
  datatype Member = Absent | NotArray | Array(items: seq<Entry>)

  /** The storage slot: nothing (or the empty string), text that does not
      parse, or a parsed value with its two members (a value that is not an
      object has both absent). */
  datatype Slot = Empty | Garbled | Parsed(hard: Member, soft: Member)

  /** `Boolean(entry)`: neither `null` nor the empty string. */
  predicate Truthy(e: Entry)
  {
    e.Some? && e.value != ""
  }

  /** One list as read: a non-empty array is taken as it is, anything else is the default. */
  function ReadList(m: Member): (r: seq<Entry>)
    ensures r != []
    ensures r == DEFAULT_ORDER || m == Array(r)
    ensures m.Array? && m.items != [] <==> m == Array(r)
  {
    if m.Array? && |m.items| > 0 then m.items else DEFAULT_ORDER
  }

  /** `getTerminologyConfig` of the slot's content. */
  function Read(slot: Slot): (r: Config)
    ensures slot.Empty? || slot.Garbled? ==> r == Config(DEFAULT_ORDER, DEFAULT_ORDER)
    ensures slot.Parsed? ==> r.hard == ReadList(slot.hard) && r.soft == ReadList(slot.soft)
    ensures r.hard != [] && r.soft != []
  {
    match slot
    case Empty => Config(DEFAULT_ORDER, DEFAULT_ORDER)
    case Garbled => Config(DEFAULT_ORDER, DEFAULT_ORDER)
    case Parsed(hard, soft) => Config(ReadList(hard), ReadList(soft))
  }

  /** `(list || []).filter(Boolean)`. */
  function Normalize(list: Option<seq<Entry>>): (r: seq<Entry>)
    ensures forall i :: 0 <= i < |r| ==> Truthy(r[i])
    ensures list.None? ==> r == []
    ensures list.Some? ==> IsSubsequence(r, list.value)
    ensures list.Some? ==> forall i :: 0 <= i < |list.value| && Truthy(list.value[i]) ==> list.value[i] in r
    ensures list.Some? ==> forall e :: multiset(r)[e] == (if Truthy(e) then multiset(list.value)[e] else 0)
  {
    FilterIsSubsequence(list.GetOr([]), Truthy);
    FilterMultiplicity(list.GetOr([]), Truthy);
    Filter(list.GetOr([]), Truthy)
  }

  /** A list without falsy entries is stored as it is. */
  lemma NormalizeTruthy(list: seq<Entry>)
    requires forall i :: 0 <= i < |list| ==> Truthy(list[i])
    ensures Normalize(Some(list)) == list
  {
    FilterAll(list, Truthy);
  }

  /** The slot's content after `setTerminologyConfig(cfg)`. */
  function Stored(cfg: ConfigInput): Slot
  {
    Parsed(Array(Normalize(cfg.hard)), Array(Normalize(cfg.soft)))
  }

  /** Reading after a write gives, per list, the written list without its
      falsy entries, or the default when nothing is left of it. */
  lemma ReadAfterSet(cfg: ConfigInput)
    ensures Read(Stored(cfg)).hard == (if Normalize(cfg.hard) != [] then Normalize(cfg.hard) else DEFAULT_ORDER)
    ensures Read(Stored(cfg)).soft == (if Normalize(cfg.soft) != [] then Normalize(cfg.soft) else DEFAULT_ORDER)
  {
  }

  /** Writing back what was read leaves the slot's reading as it was, once
      the stored lists carry no falsy entries. */
  lemma SetWhatWasRead(slot: Slot)
    requires slot.Parsed? && slot.hard.Array? && slot.soft.Array?
    requires forall i :: 0 <= i < |slot.hard.items| ==> Truthy(slot.hard.items[i])
    requires forall i :: 0 <= i < |slot.soft.items| ==> Truthy(slot.soft.items[i])
    ensures Read(Stored(ConfigInput(Some(Read(slot).hard), Some(Read(slot).soft)))) == Read(slot)
  {
    ReadBack(slot.hard);
    ReadBack(slot.soft);
  }

  /** One list of `SetWhatWasRead`. */
  lemma ReadBack(m: Member)
    requires m.Array? && forall i :: 0 <= i < |m.items| ==> Truthy(m.items[i])
    ensures ReadList(Array(Normalize(Some(ReadList(m))))) == ReadList(m)
  {
    if m.items != [] { NormalizeTruthy(m.items); } else { NormalizeTruthy(DEFAULT_ORDER); }
  }

  /** The single storage slot of the configuration. */
  class TerminologyStore {
    var slot: Slot

    constructor(initial: Slot)
      ensures slot == initial
    {
      slot := initial;
    }

    /** `getTerminologyConfig`. */
    function Get(): (r: Config)
      reads this
      ensures r.hard != [] && r.soft != []
      ensures slot.Empty? || slot.Garbled? ==> r == Config(DEFAULT_ORDER, DEFAULT_ORDER)
    {
      Read(slot)
    }

    /** `setTerminologyConfig`: both lists normalised, the slot overwritten. */
    method Set(cfg: ConfigInput)
      modifies this
      ensures slot == Stored(cfg)
      ensures Get().hard == (if Normalize(cfg.hard) != [] then Normalize(cfg.hard) else DEFAULT_ORDER)
      ensures Get().soft == (if Normalize(cfg.soft) != [] then Normalize(cfg.soft) else DEFAULT_ORDER)
    {
      var normalized := Stored(cfg);
      slot := normalized;
      ReadAfterSet(cfg);
    }
  }
}
