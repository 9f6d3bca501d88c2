/** `SignatureView` (Views/SignatureView.swift): the signature pad and its three buttons. */
module SignatureView {
  import opened Common
  import opened Visitors
  import opened Flow
  import opened VisitorInfoView
  import Persistence

  /**
   * The screen shown while `route == .signature`. The canvas is seen through its stroke count;
   * `hasDrawing` is the flag the canvas delegate keeps.
   */
  class SignatureScreen {
    const state: AppState
    var strokes: nat
    var hasDrawing: bool

    /** The flag tracks whether the drawing has strokes. */
    predicate Tracks()
      reads this
    {
      hasDrawing <==> strokes > 0
    }

    /** Each appearance starts with a fresh, empty canvas. */
    constructor Appear(state: AppState)
      ensures this.state == state && strokes == 0 && !hasDrawing && Tracks()
    {
      this.state := state;
      strokes := 0;
      hasDrawing := false;
    }

    /** `canvasViewDrawingDidChange`: the flag becomes "the drawing has at least one stroke". */
    method DrawingDidChange(strokeCount: nat)
      modifies this`strokes, this`hasDrawing
      ensures strokes == strokeCount && (hasDrawing <==> strokeCount > 0) && Tracks()
    {
      strokes := strokeCount;
      hasDrawing := strokes != 0;
    }

    /** Clear: an empty drawing and the flag false. */
    method Clear()
      modifies this`strokes, this`hasDrawing
      ensures strokes == 0 && !hasDrawing && Tracks()
    {
      strokes := 0;
      hasDrawing := false;
    }

    /** Back: unconditionally to the visitor information screen. */
    method Back()
      requires state.route == Signature
      modifies state`route
      ensures state.route == Info
      ensures old(SignInInvariant(state)) ==> SignInInvariant(state)
    {
      state.route := Info;
    }

    /**
     * Done: enabled only when something is drawn; `finalize` hands the rendered image's PNG bytes
     * (`png`) and the current time to `completeSignature`. The visitor appended is one who agreed to
     * the disclosure and gave a non-blank name and email. While the flag tracks the canvas, the
     * image handed on has at least one stroke.
     */
    method Done(png: Option<Bytes>, now: Date)
      requires state.route == Signature && hasDrawing
      modifies state`currentVisitor, state`visitors, state`defaults, state`route
      ensures state.currentVisitor == old(state.currentVisitor).(signatureImagePNGData := png, signedAt := Some(now))
      ensures state.visitors == old(state.visitors) + [state.currentVisitor]
      ensures state.defaults == Persistence.Write(Persistence.Write(old(state.defaults), VisitorsKey, state.visitorsCodec,
        state.visitors), SettingsKey, state.settingsCodec, state.agentSettings)
      ensures state.route == Route.Done
      ensures old(Tracks()) ==> strokes > 0
      ensures old(SignInInvariant(state)) ==>
        state.visitors[|state.visitors| - 1].agreedToDisclosure && CanProceed(state.visitors[|state.visitors| - 1])
    {
      state.CompleteSignature(png, now);
      assert state.visitors == old(state.visitors) + [state.currentVisitor];
    }
  }
}
