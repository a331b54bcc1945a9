/** The references of storage/objects.go and the datastore keys that
    storage/datastore.go derives from them (the `key()` methods), plus
    `newFolderRef` of storage/utils.go. A key is a kind, a string or an
    integer id and an optional parent key. */
module StorageKeys {
  import opened Wrappers
  import opened StorageIds

  datatype KeyId = StringId(name: string) | IntId(id: int64)

  datatype Key = Key(kind: string, id: KeyId, parent: Option<Key>)

  /** `Key.IntID()`: zero for a key with a string id. */
  function IntID(key: Key): int64 {
    if key.id.IntId? then key.id.id else 0
  }

  /** The key at the top of `key`'s ancestor chain. */
  function Root(key: Key): (r: Key)
    ensures r.parent.None?
  {
    match key.parent
    case None => key
    case Some(p) => Root(p)
  }

  type UserID = string

  datatype FolderRef = FolderRef(userID: UserID, folderID: string)

  datatype SubscriptionRef = SubscriptionRef(folderRef: FolderRef, subscriptionID: string)

  /** Go declares `type ArticleScope SubscriptionRef`. */
  type ArticleScope = SubscriptionRef

  datatype ArticleRef = ArticleRef(subscriptionRef: SubscriptionRef, articleID: string)

  /** `FolderRef.IsZero`. */
  function IsZero(ref: FolderRef): (r: bool)
    ensures r <==> ref == FolderRef("", "")
  {
    ref.userID == "" && ref.folderID == ""
  }

  /** `SubscriptionRef.IsSubscriptionExplicit`: the reference names one
      subscription rather than a folder or all items. */
  function IsSubscriptionExplicit(ref: SubscriptionRef): (r: bool)
    ensures r <==> |ref.subscriptionID| > 0
  {
    ref.subscriptionID != ""
  }

  /** `UserID.key`. */
  function UserKey(userID: UserID): (r: Result<Key>)
    ensures r.Err? <==> userID == ""
    ensures r.Err? ==> r.message == "UserID is empty"
    ensures r.Ok? ==> r.value.kind == "User" && r.value.id == StringId(userID) && r.value.parent == None
  {
    if userID == "" then Err("UserID is empty") else Ok(Key("User", StringId(userID), None))
  }

  /** `FolderRef.key`: the user key itself, or a folder key under it. */
  function FolderKey(ref: FolderRef): (r: Result<Key>)
    ensures ref.userID == "" ==> r == UserKey(ref.userID)
    ensures ref.userID != "" && ref.folderID == "" ==> r == UserKey(ref.userID)
    ensures r.Ok? && ref.folderID != "" ==>
              r.value.kind == "Folder" && r.value.id.IntId? && r.value.parent == Some(UserKey(ref.userID).value)
    ensures ref.userID != "" && ref.folderID != "" && UnformatId(ref.folderID).Ok? &&
            UnformatId(ref.folderID).value.0 == "folder" ==>
              r == Ok(Key("Folder", IntId(UnformatId(ref.folderID).value.1), Some(UserKey(ref.userID).value)))
    ensures ref.userID != "" && ref.folderID != "" && UnformatId(ref.folderID).Err? ==>
              r == Err("Missing valid identifier")
    ensures ref.userID != "" && UnformatId(ref.folderID).Ok? && UnformatId(ref.folderID).value.0 != "folder" ==>
              r == Err("Expecting folder ID; found: " + UnformatId(ref.folderID).value.0)
  {
    match UserKey(ref.userID)
    case Err(message) => Err(message)
    case Ok(userKey) =>
      if ref.folderID != "" then
        match UnformatId(ref.folderID)
        case Err(message) => Err(message)
        case Ok((kind, id)) =>
          if kind == "folder" then Ok(Key("Folder", IntId(id), Some(userKey)))
          else Err("Expecting folder ID; found: " + kind)
      else
        Ok(userKey)
  }

  /** `SubscriptionRef.key`: an error in the folder reference comes first,
      then a missing subscription id. */
  function SubscriptionKey(ref: SubscriptionRef): (r: Result<Key>)
    ensures FolderKey(ref.folderRef).Err? ==> r == FolderKey(ref.folderRef)
    ensures FolderKey(ref.folderRef).Ok? && ref.subscriptionID == "" ==>
              r == Err("SubscriptionRef is missing Subscription ID")
    ensures r.Ok? <==> FolderKey(ref.folderRef).Ok? && IsSubscriptionExplicit(ref)
    ensures r.Ok? ==> r.value.kind == "Subscription" && r.value.id == StringId(ref.subscriptionID) &&
                      r.value.parent == Some(FolderKey(ref.folderRef).value)
  {
    match FolderKey(ref.folderRef)
    case Err(message) => Err(message)
    case Ok(ancestorKey) =>
      if ref.subscriptionID == "" then Err("SubscriptionRef is missing Subscription ID")
      else Ok(Key("Subscription", StringId(ref.subscriptionID), Some(ancestorKey)))
  }

  /** `ArticleScope.key`: without a subscription id the scope is the
      folder (or user) key itself, which is not an error. */
  function ArticleScopeKey(scope: ArticleScope): (r: Result<Key>)
    ensures r.Ok? <==> FolderKey(scope.folderRef).Ok?
    ensures !IsSubscriptionExplicit(scope) ==> r == FolderKey(scope.folderRef)
    ensures IsSubscriptionExplicit(scope) ==> r == SubscriptionKey(scope)
  {
    match FolderKey(scope.folderRef)
    case Err(message) => Err(message)
    case Ok(ancestorKey) =>
      if scope.subscriptionID == "" then Ok(ancestorKey)
      else Ok(Key("Subscription", StringId(scope.subscriptionID), Some(ancestorKey)))
  }

  /** `ArticleRef.key`: a missing subscription id is reported before any
      other key is derived. */
  function ArticleKey(ref: ArticleRef): (r: Result<Key>)
    ensures ref.subscriptionRef.subscriptionID == "" ==> r == Err("Article reference is missing subscription ID")
    ensures ref.subscriptionRef.subscriptionID != "" ==> (r.Ok? <==> SubscriptionKey(ref.subscriptionRef).Ok?)
    ensures ref.subscriptionRef.subscriptionID != "" && r.Err? ==> r == SubscriptionKey(ref.subscriptionRef)
    ensures r.Ok? ==> r.value.kind == "Article" && r.value.id == StringId(ref.articleID) &&
                      r.value.parent == Some(SubscriptionKey(ref.subscriptionRef).value)
  {
    if ref.subscriptionRef.subscriptionID == "" then Err("Article reference is missing subscription ID")
    else
      match SubscriptionKey(ref.subscriptionRef)
      case Err(message) => Err(message)
      case Ok(subscriptionKey) => Ok(Key("Article", StringId(ref.articleID), Some(subscriptionKey)))
  }

  /** An article key hangs under its user's key; its parent is a
      subscription key, whose parent is the user key exactly when the
      reference names no folder. */
  lemma ArticleKeyUnderUser(ref: ArticleRef)
    requires ArticleKey(ref).Ok?
    ensures Root(ArticleKey(ref).value) == UserKey(ref.subscriptionRef.folderRef.userID).value
    ensures var sub := ArticleKey(ref).value.parent.value;
            var folder := sub.parent.value;
            sub.kind == "Subscription" &&
            (folder.kind == "User" <==> ref.subscriptionRef.folderRef.folderID == "")
  {
    var folderKey := FolderKey(ref.subscriptionRef.folderRef).value;
    assert Root(folderKey) == UserKey(ref.subscriptionRef.folderRef.userID).value;
  }

  /** `newFolderRef`: an empty folder id for a nil key. */
  function NewFolderRef(userID: UserID, key: Option<Key>): (ref: FolderRef)
    ensures ref.userID == userID
    ensures key.None? <==> ref.folderID == ""
    ensures key.Some? ==> ref.folderID == FormatId("folder", IntID(key.value))
    ensures key.Some? ==> UnformatId(ref.folderID) == Ok(("folder", IntID(key.value)))
  {
    if key.Some? then
      FolderKindHasNoSeparator();
      UnformatFormatId("folder", IntID(key.value));
      FolderRef(userID, FormatId("folder", IntID(key.value)))
    else
      FolderRef(userID, "")
  }

  /** A folder reference built from a folder key leads back to a folder
      key with the same integer id under the user's key. */
  lemma FolderRefRoundTrip(userID: UserID, key: Key)
    requires userID != ""
    ensures FolderKey(NewFolderRef(userID, Some(key))) ==
            Ok(Key("Folder", IntId(IntID(key)), Some(Key("User", StringId(userID), None))))
  {
  }
}
