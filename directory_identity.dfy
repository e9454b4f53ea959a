/** A user or group from the directory, as a document's owner or one of its access-list entries.
    A string field that may be null is an `Option<string>`. */
module DirectoryIdentities {
  import opened Js

  datatype DirectoryIdentityType = User | Group

  datatype DirectoryIdentity = DirectoryIdentity(id: Option<string>, displayName: Option<string>,
                                                 principalName: Option<string>, kind: DirectoryIdentityType)
  {
    /** `EqualsDirectoryIdentity`: false against null, and otherwise true exactly when the two
        identities agree on all four fields. */
    function EqualsDirectoryIdentity(user: Option<DirectoryIdentity>): (r: bool)
      ensures user.None? ==> !r
      ensures user.Some? ==> (r <==> this == user.value)
    {
      user.Some? && id == user.value.id && displayName == user.value.displayName &&
      principalName == user.value.principalName && kind == user.value.kind
    }
  }

  /** The comparison is an equivalence on identities: reflexive, symmetric and transitive. */
  lemma EqualsIsEquivalence(a: DirectoryIdentity, b: DirectoryIdentity, c: DirectoryIdentity)
    ensures a.EqualsDirectoryIdentity(Some(a))
    ensures a.EqualsDirectoryIdentity(Some(b)) ==> b.EqualsDirectoryIdentity(Some(a))
    ensures a.EqualsDirectoryIdentity(Some(b)) && b.EqualsDirectoryIdentity(Some(c)) ==> a.EqualsDirectoryIdentity(Some(c))
  {
  }
}
