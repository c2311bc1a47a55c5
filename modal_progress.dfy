/**
 * The progress form of one workout (components/ModalProgress/ModalProgress.tsx): editing the
 * repetition counts, cleaning them and saving them.
 */
module ModalProgress {
  import opened Wrappers
  import opened Errors

  const NotAnArray := "Прогресс должен быть массивом чисел"
  const SaveFailed := "Не удалось сохранить прогресс. Попробуйте еще раз."

  predicate NonNegative(counts: seq<int>) {
    forall i | 0 <= i < |counts| :: counts[i] >= 0
  }

  /** `Math.max(0, value)` */
  function AtLeastZero(value: int): (r: int)
    ensures r >= 0 && r >= value
    ensures value >= 0 ==> r == value
  {
    if value < 0 then 0 else value
  }

  /** `handleChange(index, value)`: a copy with one entry replaced by the clamped value. */
  function Changed(counts: seq<int>, index: nat, value: int): (r: seq<int>)
    requires index < |counts|
    ensures |r| == |counts|
    ensures r[index] == AtLeastZero(value)
    ensures forall i | 0 <= i < |counts| && i != index :: r[i] == counts[i]
  {
    counts[index := AtLeastZero(value)]
  }

  /** Edits through the form never introduce a negative count. */
  lemma ChangeKeepsNonNegative(counts: seq<int>, index: nat, value: int)
    requires index < |counts| && NonNegative(counts)
    ensures NonNegative(Changed(counts, index, value))
  {
  }

  /** The `map` in `handleSave`: negatives become 0 (counts are whole numbers, so rounding keeps them). */
  function Sanitized(counts: seq<int>): (r: seq<int>)
    ensures |r| == |counts|
    ensures NonNegative(r)
    ensures forall i | 0 <= i < |counts| :: r[i] == AtLeastZero(counts[i])
  {
    seq(|counts|, i requires 0 <= i < |counts| => AtLeastZero(counts[i]))
  }

  /** Cleaning changes nothing in counts that are already valid, so cleaning twice is cleaning once. */
  lemma SanitizedIdentity(counts: seq<int>)
    ensures NonNegative(counts) ==> Sanitized(counts) == counts
    ensures Sanitized(Sanitized(counts)) == Sanitized(counts)
  {
  }

  /** `getErrorMessage(err) || fallback`: an empty message gives way to the generic one. */
  function SaveErrorText(e: Thrown): (r: string)
    ensures r != ""
    ensures GetErrorMessage(e) != "" ==> r == GetErrorMessage(e)
  {
    var m := GetErrorMessage(e);
    if m != "" then m else SaveFailed
  }

  /** An Error with an empty message, or a server reply with an empty message, shows the fallback. */
  lemma EmptyMessagesFallBack()
    ensures SaveErrorText(PlainError("")) == SaveFailed
    ensures SaveErrorText(AxiosError("x", Some(AxiosResponse(Some(500), Some(""))), true)) == SaveFailed
    ensures SaveErrorText(PlainError(NotAnArray)) == NotAnArray
  {
  }

  class ProgressForm {
    var progress: seq<int>
    var isSaving: bool
    var error: Option<string>
    var saved: Option<seq<int>>   // the counts `onSaveProgress` was last called with
    var closed: bool              // `onClose` was called

    constructor (initialProgress: seq<int>)
      ensures progress == initialProgress && !isSaving && error.None? && saved.None? && !closed
    {
      progress, isSaving, error, saved, closed := initialProgress, false, None, None, false;
    }

    /** The reset effect: a new `initialProgress` replaces whatever was typed. */
    method Reset(initialProgress: seq<int>)
      modifies this
      ensures progress == initialProgress
      ensures isSaving == old(isSaving) && error == old(error) && saved == old(saved) && closed == old(closed)
    {
      progress := initialProgress;
    }

    /** `handleChange` for one of the rendered inputs. */
    method Change(index: nat, value: int)
      requires index < |progress|
      modifies this
      ensures progress == Changed(old(progress), index, value)
      ensures isSaving == old(isSaving) && error == old(error) && saved == old(saved) && closed == old(closed)
    {
      progress := Changed(progress, index, value);
    }

    /**
     * The start of `handleSave`: the counts sent to `saveProgress`, or none when there is
     * nothing to save, in which case the save ends here with its message.
     */
    method BeginSave() returns (request: Option<seq<int>>)
      modifies this
      ensures |progress| == 0 ==> request.None? && error == Some(NotAnArray) && !isSaving
      ensures |progress| > 0 ==> request == Some(Sanitized(progress)) && error.None? && isSaving
      ensures progress == old(progress) && saved == old(saved) && closed == old(closed)
    {
      isSaving := true;
      error := None;
      if |progress| == 0 {
        error := Some(SaveErrorText(PlainError(NotAnArray)));
        isSaving := false;
        return None;
      }
      request := Some(Sanitized(progress));
    }

    /** The end of `handleSave` once `saveProgress(sent)` has answered `reply`. */
    method FinishSave(sent: seq<int>, reply: Result<(), Thrown>)
      modifies this
      ensures !isSaving
      ensures reply.Ok? ==> saved == Some(sent) && closed && error == old(error)
      ensures reply.Err? ==> saved == old(saved) && closed == old(closed) && error == Some(SaveErrorText(reply.error))
      ensures progress == old(progress)
    {
      if reply.Ok? {
        saved := Some(sent);
        closed := true;
      } else {
        error := Some(SaveErrorText(reply.error));
      }
      isSaving := false;
    }
  }
}
