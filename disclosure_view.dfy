/** `DisclosureView` (Views/DisclosureView.swift): the acknowledgement toggle and Continue. */
module DisclosureView {
  import opened Visitors
  import opened Flow
  import opened VisitorInfoView

  /**
   * The screen shown while `route == .disclosure`. Its Back button is permanently disabled, so it
   * has no handler: Continue is the only way on, the sidebar aside.
   */
  class DisclosureScreen {
    const state: AppState
    var isChecked: bool

    /** Each appearance starts with the box unchecked. */
    constructor Appear(state: AppState)
      ensures this.state == state && !isChecked
    {
      this.state := state;
      isChecked := false;
    }

    /** The toggle. */
    method Toggle(on: bool)
      modifies this`isChecked
      ensures isChecked == on
    {
      isChecked := on;
    }

    /**
     * Continue to Sign-In: enabled only when the box is checked; stores the flag (so `true`) on the
     * current visitor, leaves its other fields alone and moves to the visitor information screen.
     */
    method ContinueToSignIn()
      requires state.route == Disclosure && isChecked
      modifies state`currentVisitor, state`route
      ensures state.currentVisitor == old(state.currentVisitor).(agreedToDisclosure := true)
      ensures state.route == Info
      ensures SignInInvariant(state)
    {
      state.currentVisitor := state.currentVisitor.(agreedToDisclosure := isChecked);
      state.route := Info;
    }
  }
}
