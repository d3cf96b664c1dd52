/**
 * The tab-scoped session store: one record kept under the single key
 * `love-piece-session` of the browser's `sessionStorage`.
 *
 * JSON serialisation is taken to be exact, so the entry holds the record
 * itself; an entry that does not parse is `Corrupt`. Whether the code runs in
 * a browser and whether the storage accepts calls are fixed by the
 * environment (`Env`) and never change.
 */
module SessionStorage {
  import opened Wrappers
  import opened Tones

  datatype FormData = FormData(
    selectedImages: seq<string>,
    selectedTone: Tone,
    relationship: string,
    occasion: string,
    customMessage: string)

  /** The stored record: the form fields plus the last generated text (`null` is `None`). */
  datatype SessionData = SessionData(
    selectedImages: seq<string>,
    selectedTone: Tone,
    relationship: string,
    occasion: string,
    customMessage: string,
    generatedText: Option<string>)

  /** A `Partial<FormData>`: `None` is a key left out, which leaves the stored field as it is. */
  datatype PartialForm = PartialForm(
    selectedImages: Option<seq<string>>,
    selectedTone: Option<Tone>,
    relationship: Option<string>,
    occasion: Option<string>,
    customMessage: Option<string>)

  const DefaultSessionData := SessionData([], Casual, "", "", "", None)

  /** The storage slot under the session key. */
  datatype Entry = Absent | Corrupt | Stored(data: SessionData)

  /**
   * The environment: `hasWindow` is false during server-side rendering;
   * storage that is not `accessible` throws on every call; `room` is how much
   * the storage quota leaves for this entry once the tab's other keys are
   * counted. A `setItem` whose record is larger than `room` throws.
   */
  datatype Env = Env(hasWindow: bool, accessible: bool, room: nat)

  /** The characters in a list of image data URLs. */
  function ImagesSize(images: seq<string>): nat {
    if images == [] then 0 else |images[0]| + ImagesSize(images[1..])
  }

  /** The size a record takes in storage, counted as the characters of its strings. */
  function Size(d: SessionData): nat {
    ImagesSize(d.selectedImages) + |ToneName(d.selectedTone)| + |d.relationship| + |d.occasion|
    + |d.customMessage| + (match d.generatedText case Some(t) => |t| case None => 0)
  }

  /** A `setItem` of `d` succeeds: there is a window, the storage answers, and `d` fits. */
  predicate Fits(env: Env, d: SessionData) {
    env.hasWindow && env.accessible && Size(d) <= env.room
  }

  /** Every added image counts in full towards the record's size. */
  lemma {:induction false} ImagesSizeAppend(images: seq<string>, image: string)
    ensures ImagesSize(images + [image]) == ImagesSize(images) + |image|
  {
    if images != [] {
      assert (images + [image])[1..] == images[1..] + [image];
      ImagesSizeAppend(images[1..], image);
    }
  }

  /**
   * Adding an image to the form makes the record larger by that image, so a
   * record can be stored without a photo and refused with it.
   */
  lemma AddingImageGrowsRecord(d: SessionData, image: string)
    ensures Size(d.(selectedImages := d.selectedImages + [image])) == Size(d) + |image|
  {
    ImagesSizeAppend(d.selectedImages, image);
  }

  // ---------------------------------------------------------------------------
  // The record operations, on values
  // ---------------------------------------------------------------------------

  /** The form part of a record: every field but `generatedText`. */
  function FormOf(s: SessionData): (f: FormData)
    ensures SessionData(f.selectedImages, f.selectedTone, f.relationship, f.occasion, f.customMessage,
                        s.generatedText) == s
  {
    FormData(s.selectedImages, s.selectedTone, s.relationship, s.occasion, s.customMessage)
  }

  /** `{ ...current, ...partial }`: the fields present in `p` win, all others are kept. */
  function Merge(s: SessionData, p: PartialForm): (r: SessionData)
    ensures r.selectedImages == p.selectedImages.GetOr(s.selectedImages)
    ensures r.selectedTone == p.selectedTone.GetOr(s.selectedTone)
    ensures r.relationship == p.relationship.GetOr(s.relationship)
    ensures r.occasion == p.occasion.GetOr(s.occasion)
    ensures r.customMessage == p.customMessage.GetOr(s.customMessage)
    ensures r.generatedText == s.generatedText
  {
    s.(selectedImages := p.selectedImages.GetOr(s.selectedImages),
       selectedTone := p.selectedTone.GetOr(s.selectedTone),
       relationship := p.relationship.GetOr(s.relationship),
       occasion := p.occasion.GetOr(s.occasion),
       customMessage := p.customMessage.GetOr(s.customMessage))
  }

  /** Merging the same partial form twice gives the record merging it once gives. */
  lemma MergeIdempotent(s: SessionData, p: PartialForm)
    ensures Merge(Merge(s, p), p) == Merge(s, p)
  {
  }

  /** A later merge of other fields keeps what an earlier merge set. */
  lemma MergeKeepsEarlierFields(s: SessionData, p: PartialForm, q: PartialForm)
    requires q.relationship.None?
    ensures Merge(Merge(s, p), q).relationship == Merge(s, p).relationship
  {
  }

  /** `getSessionData`: the stored record, or the default whenever it cannot be had. */
  function Read(env: Env, e: Entry): (r: SessionData)
    ensures !env.hasWindow || !env.accessible || !e.Stored? ==> r == DefaultSessionData
    ensures env.hasWindow && env.accessible && e.Stored? ==> r == e.data
  {
    if !env.hasWindow || !env.accessible then DefaultSessionData
    else
      match e
      case Stored(data) => data
      case _ => DefaultSessionData
  }

  /** `setSessionData`: a write that throws, or has no window, leaves the entry untouched. */
  function Write(env: Env, e: Entry, d: SessionData): Entry {
    if Fits(env, d) then Stored(d) else e
  }

  /** A write refused for its size leaves the entry, and a later write that fits is stored. */
  lemma SwallowedWriteThenSmallerWrite(env: Env, e: Entry, large: SessionData, small: SessionData)
    requires env.hasWindow && env.accessible && Size(small) <= env.room < Size(large)
    ensures Write(env, e, large) == e
    ensures Write(env, Write(env, e, large), small) == Stored(small)
  {
  }

  /** `clearSessionData`: removes the entry unless there is no window or the storage throws. */
  function Remove(env: Env, e: Entry): (r: Entry)
    ensures Read(env, r) == DefaultSessionData
  {
    if env.hasWindow && env.accessible then Absent else e
  }

  /** The entry `setFormData(p)` leaves behind. */
  function WriteForm(env: Env, e: Entry, p: PartialForm): Entry {
    Write(env, e, Merge(Read(env, e), p))
  }

  /** `setFormData(p)` twice leaves the entry once leaves, in every environment and from every entry. */
  lemma WriteFormIdempotent(env: Env, e: Entry, p: PartialForm)
    ensures WriteForm(env, WriteForm(env, e, p), p) == WriteForm(env, e, p)
  {
  }

  /** `setGeneratedText(t)` followed by `getGeneratedText()` gives `t` back whenever the storage works. */
  lemma GeneratedTextReadBack(env: Env, e: Entry, t: string)
    requires Fits(env, Read(env, e).(generatedText := Some(t)))
    ensures Read(env, Write(env, e, Read(env, e).(generatedText := Some(t)))).generatedText == Some(t)
    ensures FormOf(Read(env, Write(env, e, Read(env, e).(generatedText := Some(t))))) == FormOf(Read(env, e))
  {
  }

  // ---------------------------------------------------------------------------
  // The store
  // ---------------------------------------------------------------------------

  class SessionStore {
    const env: Env
    var stored: Entry

    constructor (env: Env, stored: Entry)
      ensures this.env == env && this.stored == stored
    {
      this.env := env;
      this.stored := stored;
    }

    /** What a read returns now. */
    function Current(): SessionData
      reads this
    {
      Read(env, stored)
    }

    method GetSessionData() returns (d: SessionData)
      ensures d == Current()
      ensures !env.hasWindow || !env.accessible || !stored.Stored? ==> d == DefaultSessionData
      ensures env.hasWindow && env.accessible && stored.Stored? ==> d == stored.data
    {
      if !env.hasWindow {
        return DefaultSessionData;
      }
      if !env.accessible {
        return DefaultSessionData;
      }
      match stored
      case Stored(data) => d := data;
      case Absent => d := DefaultSessionData;
      case Corrupt => d := DefaultSessionData;
    }

    method SetSessionData(d: SessionData)
      modifies this
      ensures stored == Write(env, old(stored), d)
      ensures Fits(env, d) ==> stored == Stored(d)
      ensures !Fits(env, d) ==> stored == old(stored)
    {
      if !env.hasWindow {
        return;
      }
      if env.accessible && Size(d) <= env.room {
        stored := Stored(d);
      }
    }

    /** `getFormData`: never null, and always the form part of what `getSessionData` returns. */
    method GetFormData() returns (f: FormData)
      ensures f == FormOf(Current())
      ensures SessionData(f.selectedImages, f.selectedTone, f.relationship, f.occasion, f.customMessage,
                          Current().generatedText) == Current()
    {
      var data := GetSessionData();
      f := FormData(data.selectedImages, data.selectedTone, data.relationship, data.occasion, data.customMessage);
    }

    method SetFormData(p: PartialForm)
      modifies this
      ensures stored == WriteForm(env, old(stored), p)
      ensures Fits(env, Merge(old(Current()), p)) ==> Current() == Merge(old(Current()), p)
      ensures !Fits(env, Merge(old(Current()), p)) ==> stored == old(stored)
      ensures Current().generatedText == old(Current()).generatedText
    {
      var current := GetSessionData();
      SetSessionData(Merge(current, p));
    }

    method GetGeneratedText() returns (t: Option<string>)
      ensures t == Current().generatedText
      ensures !env.hasWindow || !env.accessible || !stored.Stored? ==> t.None?
    {
      var data := GetSessionData();
      t := data.generatedText;
    }

    method SetGeneratedText(t: string)
      modifies this
      ensures stored == Write(env, old(stored), old(Current()).(generatedText := Some(t)))
      ensures Fits(env, old(Current()).(generatedText := Some(t))) ==>
        Current().generatedText == Some(t) && FormOf(Current()) == FormOf(old(Current()))
    {
      var current := GetSessionData();
      SetSessionData(current.(generatedText := Some(t)));
    }

    method ClearSessionData()
      modifies this
      ensures stored == Remove(env, old(stored))
      ensures Current() == DefaultSessionData
    {
      if !env.hasWindow {
        return;
      }
      if env.accessible {
        stored := Absent;
      }
    }
  }
}
