/** Records exchanged with the remote provider and the rows of the two local tables. */
module Records {

  datatype Option<+T> = None | Some(value: T)

  /** The outcome of one call to the remote provider: the parsed JSON body, or a failure
      that happens before anything is written (a network error, or a body that is not
      JSON). For a fetched user, a body without `address` or `company` also fails here,
      since dereferencing it throws before the INSERT is issued. A fetched post list whose
      element is `null` is not representable; see the README. */
  datatype Remote<+T> = Ok(value: T) | Fail

  datatype Address = Address(street: string, suite: string, city: string, zipcode: string)

  datatype Company = Company(name: string, catchPhrase: string, bs: string)

  /** A user as the remote provider returns it, with a nested address and company. */
  datatype RemoteUser = RemoteUser(
    id: int, name: string, username: string, email: string,
    address: Address, phone: string, website: string, company: Company)

  /** A post as the remote provider returns it. */
  datatype RemotePost = RemotePost(userId: int, id: int, title: string, body: string)

  /** A row of the `users` table (`id` is its INTEGER PRIMARY KEY). */
  datatype User = User(
    id: int, name: string, email: string, phone: string, website: string,
    city: string, company: string)

  /** A row of the `posts` table. `company` is NULL (None) when the request carried no
      `company` query parameter. */
  datatype PostRow = PostRow(userId: int, title: string, body: string, company: Option<string>)

  /** The fields of a remote user that the `users` table does not keep. */
  datatype Dropped = Dropped(
    username: string, street: string, suite: string, zipcode: string,
    catchPhrase: string, bs: string)

  /** The row written for a fetched user: the nested `address.city` and `company.name`
      become the flat columns `city` and `company`. */
  function Flatten(u: RemoteUser): (r: User)
    ensures Expand(r, DroppedBy(u)) == u
  {
    User(u.id, u.name, u.email, u.phone, u.website, u.address.city, u.company.name)
  }

  /** What flattening throws away. */
  function DroppedBy(u: RemoteUser): Dropped
  {
    Dropped(u.username, u.address.street, u.address.suite, u.address.zipcode,
            u.company.catchPhrase, u.company.bs)
  }

  /** Rebuilds a nested remote user from a flat row and the dropped fields. */
  function Expand(r: User, d: Dropped): RemoteUser
  {
    RemoteUser(r.id, r.name, d.username, r.email,
               Address(d.street, d.suite, r.city, d.zipcode),
               r.phone, r.website, Company(r.company, d.catchPhrase, d.bs))
  }

  /** Flattening loses exactly the dropped fields: a remote user is recovered from its row
      and what was dropped. */
  lemma ExpandFlatten(u: RemoteUser)
    ensures Expand(Flatten(u), DroppedBy(u)) == u
  {
  }

  /** Every flat row arises from flattening: city and company land in the nested fields the
      row reads them from, and the other kept fields are carried over unchanged. */
  lemma FlattenExpand(r: User, d: Dropped)
    ensures Flatten(Expand(r, d)) == r
    ensures DroppedBy(Expand(r, d)) == d
    ensures Expand(r, d).address.city == r.city && Expand(r, d).company.name == r.company
  {
  }
}
