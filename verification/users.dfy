/**
 * users/service.go: the payment-address rule, first-login user creation and
 * lookup by id.  The user store and crypto/rand are outside this model; what
 * they returned arrives as parameters, and each operation reports the store
 * write it asked for, if any.
 */
module Users {
  import opened Wrappers
  import opened Errors
  import opened Text

  datatype User = User(
    id: nat,
    email: string,
    name: string,
    googleId: string,
    proxySecret: string,
    paymentAddress: string)

  /** The pattern ^0x[a-fA-F0-9]{40}$ (Go's `$` matches only at the end of the text). */
  predicate IsPaymentAddress(s: string)
  {
    |s| == 42 && s[0] == '0' && s[1] == 'x' && forall i :: 2 <= i < 42 ==> IsHexDigit(s[i])
  }

  const InvalidAddressMessage: string :=
    "invalid payment address format, must start with 0x followed by 40 hex characters"

  /** A store call together with the operation's result. */
  datatype Outcome<W> = Outcome(result: Result<User, Error>, write: Option<W>)

  /**
   * UpdatePaymentAddress: "" (clearing the address) or a well-formed address
   * is written through `stored`; anything else fails before any write.
   */
  function UpdatePaymentAddress(userId: nat, address: string, stored: Result<User, Error>): (o: Outcome<(nat, string)>)
    ensures o.write.Some? <==> address == "" || IsPaymentAddress(address)
    ensures o.write.Some? ==> o.write.value == (userId, address)
    ensures o.write.None? ==> o.result == Err(Message(InvalidAddressMessage))
    ensures o.write.Some? && stored.Ok? ==> o.result == stored
    ensures o.write.Some? && stored.Err? ==> o.result == Err(Wrapped("failed to update payment address", stored.error))
  {
    if address != "" && !IsPaymentAddress(address) then Outcome(Err(Message(InvalidAddressMessage)), None)
    else
      var result := match stored
        case Ok(u) => Ok(u)
        case Err(e) => Err(Wrapped("failed to update payment address", e));
      Outcome(result, Some((userId, address)))
  }

  /** An address rendered from 20 bytes of hex is accepted as a payment address. */
  lemma HexAddressAccepted(bytes: seq<nat>)
    requires |bytes| == 20 && forall i :: 0 <= i < |bytes| ==> bytes[i] < 256
    ensures IsPaymentAddress("0x" + HexEncode(bytes))
  {
    var s := "0x" + HexEncode(bytes);
    forall i | 2 <= i < 42 ensures IsHexDigit(s[i]) {
      assert s[i] == HexEncode(bytes)[i - 2];
    }
  }

  /** One character more or less, or a missing "0x", is refused. */
  lemma AddressShapeIsExact(s: string)
    requires IsPaymentAddress(s)
    ensures !IsPaymentAddress(s + "0") && !IsPaymentAddress(s[1..])
    ensures !IsPaymentAddress("1x" + s[2..])
  {
  }

  /** The value handed to UserStore.CreateUser for a first login. */
  function NewUser(email: string, name: string, googleId: string, secretBytes: seq<nat>): User
    requires |secretBytes| == 16 && forall i :: 0 <= i < 16 ==> secretBytes[i] < 256
  {
    User(0, email, name, googleId, HexEncode(secretBytes), "")
  }

  /**
   * FindOrCreateUser.  `lookup` is FindUserByGoogleID's answer, `entropy` what
   * rand.Read filled the 16-byte buffer with, `createdId` CreateUser's answer.
   */
  function FindOrCreateUser(email: string, name: string, googleId: string,
                            lookup: Result<User, Error>,
                            entropy: Result<seq<nat>, Error>,
                            createdId: Result<nat, Error>): (o: Outcome<User>)
    requires entropy.Ok? ==> |entropy.value| == 16 && forall i :: 0 <= i < 16 ==> entropy.value[i] < 256
    ensures lookup.Ok? ==> o == Outcome(lookup, None)
    ensures lookup.Err? && !Is(lookup.error, UserNotFound) ==>
              o == Outcome(Err(Wrapped("error checking Google user", lookup.error)), None)
    ensures o.write.Some? <==> lookup.Err? && Is(lookup.error, UserNotFound) && entropy.Ok?
    ensures o.write.Some? ==>
              var u := o.write.value;
              u.email == email && u.name == name && u.googleId == googleId && u.paymentAddress == ""
              && |u.proxySecret| == 32 && (forall i :: 0 <= i < 32 ==> IsHexDigit(u.proxySecret[i]))
              && HexDecode(u.proxySecret) == entropy.value
    ensures o.write.Some? && createdId.Ok? ==> o.result == Ok(o.write.value.(id := createdId.value))
    ensures o.write.Some? && createdId.Err? ==> o.result == Err(Wrapped("failed to create user", createdId.error))
    ensures lookup.Err? && Is(lookup.error, UserNotFound) && entropy.Err? ==>
              o.result == Err(Wrapped("failed to generate proxy secret", entropy.error))
  {
    if lookup.Ok? then Outcome(lookup, None)
    else if !Is(lookup.error, UserNotFound) then Outcome(Err(Wrapped("error checking Google user", lookup.error)), None)
    else if entropy.Err? then Outcome(Err(Wrapped("failed to generate proxy secret", entropy.error)), None)
    else
      var u := NewUser(email, name, googleId, entropy.value);
      HexRoundTrip(entropy.value);
      match createdId
      case Err(e) => Outcome(Err(Wrapped("failed to create user", e)), Some(u))
      case Ok(id) => Outcome(Ok(u.(id := id)), Some(u))
  }

  /** GetUserByID: not-found is returned as the bare sentinel, any other error wrapped. */
  function GetUserById(lookup: Result<User, Error>): (r: Result<User, Error>)
    ensures lookup.Ok? ==> r == lookup
    ensures lookup.Err? && Is(lookup.error, UserNotFound) ==> r == Err(Sentinel(UserNotFound))
    ensures lookup.Err? && !Is(lookup.error, UserNotFound) ==>
              r.Err? && !Is(r.error, UserNotFound) && ErrorString(r.error) == "error finding user: " + ErrorString(lookup.error)
  {
    match lookup
    case Ok(u) => Ok(u)
    case Err(e) => if Is(e, UserNotFound) then Err(Sentinel(UserNotFound)) else Err(Wrapped("error finding user", e))
  }
}
