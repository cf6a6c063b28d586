/**
 * `src/components/student/content-viewer.tsx`: the player for one resource
 * and its "Mark as Complete" button, which marks the resource done before
 * the server answers and takes it back if the request fails.
 *
 * Both flags are initialised from the first resource only; a later change of
 * the `resource` prop does not reset them, so the resource is a constant.
 */
module Content {

  import opened Common
  import opened Types
  import opened Dialogs

  const SaveFailedAlert := DialogOptions("Error", "Could not save progress.", Some(Error), None, None)

  /** `resource.preview_link || resource.external_url`. */
  function EmbedUrl(r: Resource): (url: Option<string>)
    ensures r.previewLink.Some? && r.previewLink.value != [] ==> url == r.previewLink
    ensures !(r.previewLink.Some? && r.previewLink.value != []) ==> url == r.externalUrl
  {
    if r.previewLink.Some? && r.previewLink.value != [] then r.previewLink else r.externalUrl
  }

  /** The player shows an "Open Resource" link instead of an embedded frame. */
  predicate UsesExternalLink(r: Resource)
  {
    r.resourceType == Link || EmbedUrl(r).None? || EmbedUrl(r).value == []
  }

  /**
   * The frame is used exactly for non-link resources with a non-empty preview
   * link or, lacking one, a non-empty external address.
   */
  lemma EmbedChoice(r: Resource)
    ensures !UsesExternalLink(r) <==>
              r.resourceType != Link
              && ((r.previewLink.Some? && r.previewLink.value != [])
                  || (r.externalUrl.Some? && r.externalUrl.value != []))
  {
  }

  class ContentViewer {

    const resource: Option<Resource>
    var isCompleting: bool
    var isCompleted: bool

    /** `useState(resource?.is_completed || false)`. */
    constructor (resource: Option<Resource>)
      ensures this.resource == resource && !isCompleting
      ensures isCompleted <==> resource.Some? && resource.value.isCompleted == Some(true)
    {
      this.resource := resource;
      isCompleting := false;
      isCompleted := resource.Some? && resource.value.isCompleted == Some(true);
    }

    /**
     * The first half of `handleMarkComplete`: an already completed resource
     * sends nothing; otherwise it is marked done before the request.
     */
    method BeginMarkComplete() returns (sent: bool)
      modifies this
      ensures old(isCompleted) ==> !sent && isCompleted && isCompleting == old(isCompleting)
      ensures !old(isCompleted) ==> sent && isCompleted && isCompleting
    {
      if isCompleted {
        return false;
      }
      isCompleted := true;
      isCompleting := true;
      sent := true;
    }

    /**
     * The second half: the reply. Success keeps the mark and calls
     * `onComplete` when there is one; failure takes the mark back and alerts.
     */
    method FinishMarkComplete(ok: bool, hasOnComplete: bool)
      returns (calledOnComplete: bool, shown: Option<DialogOptions>)
      modifies this
      ensures !isCompleting
      ensures ok ==> isCompleted == old(isCompleted) && calledOnComplete == hasOnComplete && shown == None
      ensures !ok ==> !isCompleted && !calledOnComplete && shown == Some(SaveFailedAlert)
    {
      if ok {
        calledOnComplete := hasOnComplete;
        shown := None;
      } else {
        isCompleted := false;
        calledOnComplete := false;
        shown := Some(SaveFailedAlert);
      }
      isCompleting := false;
    }
  }

  /**
   * One click from the not-completed state: whatever the server answers, the
   * request is sent once, nothing is left saving, and the mark ends up
   * exactly as the server decided.
   */
  method MarkCompleteRoundTrip(v: ContentViewer, ok: bool) returns (sent: bool)
    requires !v.isCompleted && !v.isCompleting
    modifies v
    ensures sent && !v.isCompleting && v.isCompleted == ok
  {
    sent := v.BeginMarkComplete();
    var _, _ := v.FinishMarkComplete(ok, true);
  }
}
