/**
  The part of GLib's `GSimpleAsyncResult` that the listener uses: the
  source tag it was created with, the error stored on it, and how many
  times completion was scheduled.
 */
module GAsync {
  import opened Wrappers

  /** Which function created a result; the listener's finish function
      checks it. */
  datatype SourceTag = InitiateAuthenticationTag | OtherSourceTag

  class SimpleAsyncResult {
    const sourceTag: SourceTag
    var error: Option<string>
    var completions: nat

    /** `g_simple_async_result_new`. */
    constructor (sourceTag: SourceTag)
      ensures this.sourceTag == sourceTag && error == None && completions == 0
    {
      this.sourceTag := sourceTag;
      error := None;
      completions := 0;
    }

    /** `g_simple_async_result_set_error`. */
    method SetError(message: string)
      modifies this
      ensures error == Some(message) && completions == old(completions)
    {
      error := Some(message);
    }

    /** `g_simple_async_result_complete_in_idle`: the callback is
        scheduled; the model records that it was. */
    method CompleteInIdle()
      modifies this
      ensures completions == old(completions) + 1 && error == old(error)
    {
      completions := completions + 1;
    }
  }
}
