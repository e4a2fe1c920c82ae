/** The newsletter subscriber list: an email is added only when it is absent. */
module Newsletter {

  /** No email occurs twice in the list. */
  predicate NoDuplicates(list: seq<string>)
  {
    forall i, j :: 0 <= i < j < |list| ==> list[i] != list[j]
  }

  /** The list after subscribing `email`. */
  function AddSubscriber(list: seq<string>, email: string): (r: seq<string>)
    ensures email in list ==> r == list
    ensures email in r
    ensures list <= r && |r| <= |list| + 1
    ensures forall e :: e in r <==> e in list || e == email
    ensures multiset(r)[email] == if email in list then multiset(list)[email] else 1
  {
    if email in list then list else list + [email]
  }

  /** Subscribing an email a second time changes nothing. */
  lemma AddSubscriberIdempotent(list: seq<string>, email: string)
    ensures AddSubscriber(AddSubscriber(list, email), email) == AddSubscriber(list, email)
  {
  }

  /** A list without duplicates stays without duplicates. */
  lemma AddSubscriberKeepsDistinct(list: seq<string>, email: string)
    requires NoDuplicates(list)
    ensures NoDuplicates(AddSubscriber(list, email))
  {
  }

  /** Subscribing once or twice leaves the email in the list exactly once. */
  lemma SubscribedOnce(list: seq<string>, email: string)
    requires multiset(list)[email] <= 1
    ensures multiset(AddSubscriber(list, email))[email] == 1
    ensures multiset(AddSubscriber(AddSubscriber(list, email), email))[email] == 1
  {
    if email in list {
      assert multiset(list)[email] >= 1;
    }
  }
}
