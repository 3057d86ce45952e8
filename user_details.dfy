/**
 * How much of a user a deepwell response describes (web/user_details.rs):
 * three levels of detail, their names, their default and their order.
 */
module UserDetails {
  import opened Wrappers

  datatype UserDetails = Identity | Info | Profile

  /** `UserDetails::name`: the name the level is read back from. */
  function Name(d: UserDetails): (n: string)
    ensures FromName(n) == Some(d)
  {
    match d
    case Identity => "identity"
    case Info => "info"
    case Profile => "profile"
  }

  /** The level a name stands for, as the camel-case serialised form reads it back. */
  function FromName(s: string): Option<UserDetails> {
    if s == "identity" then Some(Identity)
    else if s == "info" then Some(Info)
    else if s == "profile" then Some(Profile)
    else None
  }

  /** Every level is read back from its name, and only names read back. */
  lemma NameRoundTrip(d: UserDetails, s: string)
    ensures FromName(Name(d)) == Some(d)
    ensures FromName(s) == Some(d) ==> Name(d) == s
  {
  }

  /** The three names are pairwise distinct. */
  lemma NamesDistinct(a: UserDetails, b: UserDetails)
    ensures Name(a) == Name(b) <==> a == b
  {
    NameRoundTrip(a, Name(b));
    NameRoundTrip(b, Name(a));
  }

  /** `Default for UserDetails`: below every other level. */
  function Default(): (d: UserDetails)
    ensures forall e :: e == d || Less(d, e)
  {
    Identity
  }

  /** The position of a level in the declaration, which the derived order follows. */
  function Rank(d: UserDetails): nat {
    match d
    case Identity => 0
    case Info => 1
    case Profile => 2
  }

  /** The derived `<`: declaration order, `Identity` then `Info` then `Profile`. */
  function Less(a: UserDetails, b: UserDetails): (l: bool)
    ensures l <==> (a == Identity && b != Identity) || (a == Info && b == Profile)
  {
    Rank(a) < Rank(b)
  }

  /** `Identity < Info < Profile`, and the order is a strict total order. */
  lemma OrderFacts(a: UserDetails, b: UserDetails, c: UserDetails)
    ensures Less(Identity, Info) && Less(Info, Profile)
    ensures !Less(a, a)
    ensures Less(a, b) && Less(b, c) ==> Less(a, c)
    ensures a == b || Less(a, b) || Less(b, a)
  {
  }

  /** The default is the least level. */
  lemma DefaultIsLeast(d: UserDetails)
    ensures Default() == Identity
    ensures !Less(d, Default())
  {
  }

  /** `UserDetailsQuery`, after deserialisation. */
  datatype UserDetailsQuery = UserDetailsQuery(detail: UserDetails)

  /** Deserialising a query: an absent `detail` takes the default. */
  function ReadQuery(detail: Option<UserDetails>): (q: UserDetailsQuery)
    ensures detail.None? ==> q.detail == Identity
    ensures detail.Some? ==> q.detail == detail.value
  {
    match detail
    case None => UserDetailsQuery(Default())
    case Some(d) => UserDetailsQuery(d)
  }
}
