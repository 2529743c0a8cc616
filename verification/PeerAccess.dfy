/** Whether a verified peer may use a capability: modes tried in order against injected lookups. */
module PeerAccess {
  import opened Text

  datatype Mode = VerifiedContact | AccessPass | OpenLan | Public

  datatype Reason =
    | VerifiedContactReason | ValidPass | PublicPolicy | Self
    | NotAContact | InvalidPass | ExpiredPass | DeniedByPolicy

  datatype Decision = Decision(granted: bool, reason: Reason)

  const DENIED := Decision(false, DeniedByPolicy)

  // A lookup that throws is `None`.
  type Lookup = string -> Option<bool>

  datatype PassState = NoPass | Valid | Lapsed

  datatype Contacts = Contacts(isVerified: Lookup, isBlocked: Option<Lookup>)

  datatype Passes = Passes(hasValid: (string, string) -> Option<bool>, inspect: Option<(string, string) -> Option<PassState>>)

  datatype Context = Context(contacts: Option<Contacts>, passes: Option<Passes>, selfPeerId: string)

  datatype Options = Options(modes: seq<Mode>, scope: string, allowSelf: bool)

  // A throwing lookup is a denial.
  predicate Holds(answer: Option<bool>) { answer == Some(true) }

  predicate IsPublic(m: Mode) { m.OpenLan? || m.Public? }

  predicate Blocked(ctx: Context, peerId: string) {
    ctx.contacts.Some? && ctx.contacts.value.isBlocked.Some? && Holds(ctx.contacts.value.isBlocked.value(peerId))
  }

  // `evaluatePass`
  function PassDecision(p: Passes, peerId: string, scope: string): Decision {
    match p.inspect
    case Some(inspect) =>
      (match inspect(peerId, scope)
       case Some(Valid) => Decision(true, ValidPass)
       case Some(Lapsed) => Decision(false, ExpiredPass)
       case _ => Decision(false, InvalidPass))
    case None => if Holds(p.hasValid(peerId, scope)) then Decision(true, ValidPass) else Decision(false, InvalidPass)
  }

  // ----- What access means -----

  ghost predicate IsSelf(o: Options, ctx: Context, peerId: string) {
    o.allowSelf && ctx.selfPeerId != "" && ctx.selfPeerId == peerId
  }

  // What the lookups answer when a mode proves the peer: a verified contact; a valid pass, by the
  // inspection where there is one; for a public mode, not a blocked contact.
  ghost predicate Proves(o: Options, ctx: Context, peerId: string, m: Mode) {
    match m
    case VerifiedContact => ctx.contacts.Some? && ctx.contacts.value.isVerified(peerId) == Some(true)
    case AccessPass =>
      && ctx.passes.Some? && o.scope != ""
      && if ctx.passes.value.inspect.Some? then ctx.passes.value.inspect.value(peerId, o.scope) == Some(Valid)
         else ctx.passes.value.hasValid(peerId, o.scope) == Some(true)
    case _ =>
      ctx.contacts.Some? && ctx.contacts.value.isBlocked.Some? ==> ctx.contacts.value.isBlocked.value(peerId) != Some(true)
  }

  // A mode whose configuration can prove nothing about anybody.
  ghost predicate Silent(o: Options, ctx: Context, m: Mode) {
    match m
    case VerifiedContact => ctx.contacts.None?
    case AccessPass => ctx.passes.None? || o.scope == ""
    case _ => false
  }

  ghost predicate Reports(m: Mode, reason: Reason) {
    match m
    case VerifiedContact => reason == VerifiedContactReason
    case AccessPass => reason == ValidPass
    case _ => reason == PublicPolicy
  }

  // Why a mode that is not silent does not prove the peer; only an inspection can tell a lapsed pass.
  ghost predicate Blames(o: Options, ctx: Context, peerId: string, m: Mode, reason: Reason) {
    match m
    case VerifiedContact => reason == NotAContact
    case AccessPass =>
      if ctx.passes.Some? && ctx.passes.value.inspect.Some? && ctx.passes.value.inspect.value(peerId, o.scope) == Some(Lapsed)
      then reason == ExpiredPass else reason == InvalidPass
    case _ => reason == DeniedByPolicy
  }

  // Some mode proves the peer, and no public mode comes before it.
  ghost predicate ProvedInOrder(o: Options, ctx: Context, peerId: string) {
    exists i :: 0 <= i < |o.modes| && Proves(o, ctx, peerId, o.modes[i]) && forall j :: 0 <= j < i ==> !IsPublic(o.modes[j])
  }

  ghost predicate Proved(o: Options, ctx: Context, peerId: string) {
    exists i :: 0 <= i < |o.modes| && Proves(o, ctx, peerId, o.modes[i])
  }

  ghost predicate Granted(o: Options, ctx: Context, peerId: string) {
    peerId != "" && o.modes != [] && (IsSelf(o, ctx, peerId) || ProvedInOrder(o, ctx, peerId))
  }

  // The reason of a grant is that of the first mode that proves the peer.
  ghost predicate FirstProofDecides(o: Options, ctx: Context, peerId: string, reason: Reason) {
    exists i :: 0 <= i < |o.modes| && Proves(o, ctx, peerId, o.modes[i]) && Reports(o.modes[i], reason) &&
      forall j :: 0 <= j < i ==> !Proves(o, ctx, peerId, o.modes[j])
  }

  // The reason of a denial is that of the first mode that is not silent.
  ghost predicate FirstDenialDecides(o: Options, ctx: Context, peerId: string, reason: Reason) {
    exists i :: 0 <= i < |o.modes| && !Silent(o, ctx, o.modes[i]) && !Proves(o, ctx, peerId, o.modes[i]) &&
      Blames(o, ctx, peerId, o.modes[i], reason) && forall j :: 0 <= j < i ==> Silent(o, ctx, o.modes[j])
  }

  // What a peer that does not get in is told: the first denial about the peer itself, unless a
  // public mode was tried or no mode could say anything.
  ghost predicate Told(o: Options, ctx: Context, peerId: string, reason: Reason) {
    if peerId != "" && (forall i :: 0 <= i < |o.modes| ==> !IsPublic(o.modes[i])) &&
       (exists i :: 0 <= i < |o.modes| && !Silent(o, ctx, o.modes[i]))
    then FirstDenialDecides(o, ctx, peerId, reason)
    else reason == DeniedByPolicy
  }

  lemma PassMeans(o: Options, ctx: Context, peerId: string)
    requires ctx.passes.Some? && o.scope != ""
    ensures var d := PassDecision(ctx.passes.value, peerId, o.scope);
            && (d.granted <==> Proves(o, ctx, peerId, AccessPass))
            && (if d.granted then Reports(AccessPass, d.reason) else Blames(o, ctx, peerId, AccessPass, d.reason))
  {
  }

  // Where the only mode is the access pass, a lapsed pass and an unknown one are told apart by an
  // inspection, and neither lets anybody in.
  lemma SolePass(o: Options, ctx: Context, peerId: string, reason: Reason, inspect: (string, string) -> Option<PassState>)
    requires peerId != "" && o.modes == [AccessPass] && o.scope != "" && !o.allowSelf
    requires ctx.passes.Some? && ctx.passes.value.inspect == Some(inspect)
    ensures Granted(o, ctx, peerId) <==> inspect(peerId, o.scope) == Some(Valid)
    ensures inspect(peerId, o.scope) == Some(Lapsed) ==> (Told(o, ctx, peerId, reason) <==> reason == ExpiredPass)
    ensures inspect(peerId, o.scope) in {None, Some(NoPass)} ==> (Told(o, ctx, peerId, reason) <==> reason == InvalidPass)
  {
    assert o.modes[0] == AccessPass && !Silent(o, ctx, o.modes[0]);
    if inspect(peerId, o.scope) == Some(Valid) {
      assert Proves(o, ctx, peerId, o.modes[0]);
      assert ProvedInOrder(o, ctx, peerId);
    } else {
      assert !Proves(o, ctx, peerId, o.modes[0]);
      assert Told(o, ctx, peerId, reason) == FirstDenialDecides(o, ctx, peerId, reason);
      if Blames(o, ctx, peerId, o.modes[0], reason) {
        assert FirstDenialDecides(o, ctx, peerId, reason);
      }
    }
  }

  // `checkPeerAccess`: the peer gets in exactly when it should, by the first mode that proves it;
  // otherwise it is told why.
  method CheckPeerAccess(peerId: string, o: Options, ctx: Context) returns (d: Decision)
    ensures d.granted <==> Granted(o, ctx, peerId)
    ensures d.granted ==> if IsSelf(o, ctx, peerId) then d.reason == Self else FirstProofDecides(o, ctx, peerId, d.reason)
    ensures !d.granted ==> Told(o, ctx, peerId, d.reason)
  {
    if peerId == "" || o.modes == [] {
      return DENIED;
    }
    if o.allowSelf && ctx.selfPeerId != "" && ctx.selfPeerId == peerId {
      return Decision(true, Self);
    }
    var peerSpecificDenial: Option<Decision> := None;
    for n := 0 to |o.modes|
      invariant forall j :: 0 <= j < n ==> !IsPublic(o.modes[j]) && !Proves(o, ctx, peerId, o.modes[j])
      invariant peerSpecificDenial.None? ==> forall j :: 0 <= j < n ==> Silent(o, ctx, o.modes[j])
      invariant peerSpecificDenial.Some? ==>
                  !peerSpecificDenial.value.granted && FirstDenialDecides(o, ctx, peerId, peerSpecificDenial.value.reason)
    {
      match o.modes[n] {
        case VerifiedContact =>
          if ctx.contacts.Some? {
            if Holds(ctx.contacts.value.isVerified(peerId)) {
              assert Proves(o, ctx, peerId, o.modes[n]);
              return Decision(true, VerifiedContactReason);
            }
            if peerSpecificDenial.None? {
              assert Blames(o, ctx, peerId, o.modes[n], NotAContact) && !Silent(o, ctx, o.modes[n]);
              peerSpecificDenial := Some(Decision(false, NotAContact));
            }
          }
        case AccessPass =>
          if ctx.passes.Some? && o.scope != "" {
            var decision := PassDecision(ctx.passes.value, peerId, o.scope);
            PassMeans(o, ctx, peerId);
            if decision.granted {
              assert Proves(o, ctx, peerId, o.modes[n]);
              return decision;
            }
            if peerSpecificDenial.None? {
              assert Blames(o, ctx, peerId, o.modes[n], decision.reason) && !Silent(o, ctx, o.modes[n]);
              peerSpecificDenial := Some(decision);
            }
          }
        case _ =>
          assert IsPublic(o.modes[n]);
          if Blocked(ctx, peerId) {
            return DENIED;
          }
          assert Proves(o, ctx, peerId, o.modes[n]);
          return Decision(true, PublicPolicy);
      }
    }
    return if peerSpecificDenial.Some? then peerSpecificDenial.value else DENIED;
  }

  // ----- Is it an "or" of the modes? -----

  // A public mode before every mode that proves the peer.
  ghost predicate PublicFirst(o: Options, ctx: Context, peerId: string) {
    exists j :: 0 <= j < |o.modes| && IsPublic(o.modes[j]) &&
      forall i :: 0 <= i < j ==> !Proves(o, ctx, peerId, o.modes[i])
  }

  // The ordered evaluation is the "or" of the modes, except for a blocked contact that a later
  // mode would prove: there a public mode listed first denies.
  lemma OrOfModes(o: Options, ctx: Context, peerId: string)
    ensures (ProvedInOrder(o, ctx, peerId) <==> Proved(o, ctx, peerId)) <==>
            !(Blocked(ctx, peerId) && Proved(o, ctx, peerId) && PublicFirst(o, ctx, peerId))
  {
    hide Blocked;
    PublicIsUnblocked(o, ctx, peerId);
    if Proved(o, ctx, peerId) {
      var n := FirstProof(o, ctx, peerId, 0);
      if forall j :: 0 <= j < n ==> !IsPublic(o.modes[j]) {
        assert ProvedInOrder(o, ctx, peerId);
      } else {
        var j :| 0 <= j < n && IsPublic(o.modes[j]);
        assert !Proves(o, ctx, peerId, o.modes[j]);
        assert PublicFirst(o, ctx, peerId);
      }
    }
  }

  lemma PublicIsUnblocked(o: Options, ctx: Context, peerId: string)
    ensures forall m: Mode :: IsPublic(m) ==> (Proves(o, ctx, peerId, m) <==> !Blocked(ctx, peerId))
  {
  }

  lemma {:induction false} FirstProof(o: Options, ctx: Context, peerId: string, from: nat) returns (n: nat)
    requires exists i :: from <= i < |o.modes| && Proves(o, ctx, peerId, o.modes[i])
    ensures from <= n < |o.modes| && Proves(o, ctx, peerId, o.modes[n])
    ensures forall i :: from <= i < n ==> !Proves(o, ctx, peerId, o.modes[i])
    decreases |o.modes| - from
  {
    hide Proves;
    if Proves(o, ctx, peerId, o.modes[from]) {
      n := from;
    } else {
      n := FirstProof(o, ctx, peerId, from + 1);
    }
  }

  // A verified contact that is also blocked: the order of two modes decides.
  lemma OrderMatters(ctx: Context, peerId: string)
    requires ctx.contacts.Some? && Holds(ctx.contacts.value.isVerified(peerId)) && Blocked(ctx, peerId)
    ensures ProvedInOrder(Options([VerifiedContact, Public], "", false), ctx, peerId)
    ensures !ProvedInOrder(Options([Public, VerifiedContact], "", false), ctx, peerId)
  {
    var o := Options([VerifiedContact, Public], "", false);
    assert Proves(o, ctx, peerId, o.modes[0]);
    var r := Options([Public, VerifiedContact], "", false);
    assert !Proves(r, ctx, peerId, r.modes[0]) && IsPublic(r.modes[0]);
  }
}
