/** `VisitorInfoView` (Views/VisitorInfoView.swift): the visitor's details and the guarded Next. */
module VisitorInfoView {
  import opened Common
  import opened Text
  import opened Visitors
  import opened Flow

  /** `canProceed`: name and email are both non-blank after trimming `CharacterSet.whitespaces`. */
  predicate CanProceed(v: Visitor)
  {
    Trim(v.fullName, IsWhitespace) != [] && Trim(v.email, IsWhitespace) != []
  }

  /** Non-blank means some character is not whitespace; newlines do not count as whitespace here. */
  lemma CanProceedMeaning(v: Visitor)
    ensures CanProceed(v) <==>
      (exists i :: 0 <= i < |v.fullName| && !IsWhitespace(v.fullName[i]))
      && (exists j :: 0 <= j < |v.email| && !IsWhitespace(v.email[j]))
  {
  }

  /**
   * A name made only of newlines counts as filled in (the trim set has no newlines), so the email
   * alone decides whether the visitor may proceed.
   */
  lemma NewlineNameProceeds(v: Visitor)
    requires v.fullName != [] && forall k :: 0 <= k < |v.fullName| ==> IsNewline(v.fullName[k])
    ensures CanProceed(v) <==> Trim(v.email, IsWhitespace) != []
  {
    assert !IsWhitespace(v.fullName[0]);
  }

  /** The phone and agent fields never decide `canProceed`. */
  lemma CanProceedIgnoresOtherFields(v: Visitor, w: Visitor)
    requires v.fullName == w.fullName && v.email == w.email
    ensures CanProceed(v) == CanProceed(w)
  {
  }

  /**
   * What the screens keep true of the flow: past the disclosure the current visitor has agreed,
   * and from the signature screen on its name and email are non-blank too.
   */
  ghost predicate SignInInvariant(s: AppState)
    reads s
  {
    (s.route == Info ==> s.currentVisitor.agreedToDisclosure)
    && (s.route == Signature ==> s.currentVisitor.agreedToDisclosure && CanProceed(s.currentVisitor))
  }

  /** The screen shown while `route == .info`; it edits `state.currentVisitor` through bindings. */
  class InfoScreen {
    const state: AppState

    constructor(state: AppState)
      ensures this.state == state
    {
      this.state := state;
    }

    /** Back: unconditionally to the disclosure; the visitor is untouched. */
    method Back()
      requires state.route == Info
      modifies state`route
      ensures state.route == Disclosure
      ensures old(SignInInvariant(state)) ==> SignInInvariant(state)
    {
      state.route := Disclosure;
    }

    /** Next: enabled only when `canProceed`; moves to the signature screen, the visitor untouched. */
    method Next()
      requires state.route == Info && CanProceed(state.currentVisitor)
      modifies state`route
      ensures state.route == Signature
      ensures old(SignInInvariant(state)) ==> SignInInvariant(state)
    {
      ghost var v := state.currentVisitor;
      state.route := Signature;
      assert state.currentVisitor == v;
    }

    /**
     * The text fields and the agent toggle, bound to the current visitor: every edit keeps its id,
     * its agreement and its signature.
     */
    method Edit(fullName: string, email: string, phone: string, hasAgent: bool,
                agentName: string, agentEmail: string, agentPhone: string)
      requires state.route == Info
      modifies state`currentVisitor
      ensures state.currentVisitor == old(state.currentVisitor).(fullName := fullName, email := email, phone := phone,
        hasAgent := hasAgent, agentName := agentName, agentEmail := agentEmail, agentPhone := agentPhone)
      ensures state.currentVisitor.id == old(state.currentVisitor).id
      ensures old(SignInInvariant(state)) ==> SignInInvariant(state)
    {
      state.currentVisitor := state.currentVisitor.(fullName := fullName, email := email, phone := phone,
        hasAgent := hasAgent, agentName := agentName, agentEmail := agentEmail, agentPhone := agentPhone);
    }
  }
}
