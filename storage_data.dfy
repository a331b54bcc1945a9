/** The older storage layer of storage/data.go: its `SetProperty`, which
    edits the property map and computes an unread-count delta itself, and
    the folder list of `NewUserSubscriptions`, which ends in a root folder.
    Its `formatId`/`unformatId` are the ones of `StorageIds`. */
module StorageData {
  import opened Wrappers
  import opened StorageIds
  import StorageObjects

  /** What `SetProperty` decides: the new property set, the unread delta
      and whether the article is written. */
  datatype Change = Change(properties: set<string>, unreadDelta: int, writeChanges: bool)

  /** The decision of `SetProperty` on the set `props` of present
      properties. */
  function PropertyChange(props: set<string>, name: string, value: bool): (c: Change)
    ensures value ==> name in c.properties
    ensures !value ==> name !in c.properties
    ensures c.writeChanges <==> c.properties != props
    ensures c.unreadDelta == -1 <==>
              (name == "read" && value && "read" !in props) || (name == "unread" && !value && "unread" in props)
    ensures c.unreadDelta == 1 <==>
              (name == "read" && !value && "read" in props) || (name == "unread" && value && "unread" !in props)
    ensures c.unreadDelta in {-1, 0, 1}
    ensures name == "read" && c.writeChanges ==> c.properties == (props - {"read", "unread"}) + (if value then {"read"} else {"unread"})
    ensures name == "unread" && c.writeChanges ==> c.properties == (props - {"read", "unread"}) + (if value then {"unread"} else {"read"})
    ensures name != "read" && name != "unread" ==>
              c.unreadDelta == 0 && c.properties == (if value then props + {name} else props - {name})
  {
    if name == "read" then
      if name in props && !value then Change((props - {"read"}) + {"unread"}, 1, true)
      else if name !in props && value then Change((props - {"unread"}) + {"read"}, -1, true)
      else Change(props, 0, false)
    else if name == "unread" then
      if name in props && !value then Change((props - {"unread"}) + {"read"}, -1, true)
      else if name !in props && value then Change((props - {"read"}) + {"unread"}, 1, true)
      else Change(props, 0, false)
    else
      if name in props && !value then Change(props - {name}, 0, true)
      else if name !in props && value then Change(props + {name}, 0, true)
      else Change(props, 0, false)
  }

  /** A request that is already satisfied writes nothing. */
  lemma SatisfiedRequestWritesNothing(props: set<string>, name: string, value: bool)
    requires (name in props) == value
    ensures PropertyChange(props, name, value) == Change(props, 0, false)
  {
  }

  /** `SetProperty` after the article is loaded: the map edit, the refill
      when there are changes, and the counter update, which adds the
      delta without any clamp at zero. The datastore reads and writes
      around it are not modelled. */
  method SetProperty(properties: seq<string>, name: string, value: bool, unreadCount: int)
    returns (newProperties: seq<string>, unreadDelta: int, writeChanges: bool, newUnreadCount: int)
    ensures var c := PropertyChange(StorageObjects.SetOf(properties), name, value);
            unreadDelta == c.unreadDelta && writeChanges == c.writeChanges &&
            (writeChanges ==> StorageObjects.SetOf(newProperties) == c.properties &&
                              StorageObjects.NoDuplicates(newProperties))
    ensures !writeChanges ==> newProperties == properties
    ensures newUnreadCount == if writeChanges && unreadDelta != 0 then unreadCount + unreadDelta else unreadCount
  {
    var propertyMap := StorageObjects.PropertyMap(properties);
    ghost var props := propertyMap.Keys;
    unreadDelta := 0;
    writeChanges := false;

    if name == "read" {
      if (name in propertyMap && propertyMap[name]) && !value {
        propertyMap := propertyMap - {"read"};
        propertyMap := propertyMap["unread" := true];
        unreadDelta := 1;
      } else if !(name in propertyMap && propertyMap[name]) && value {
        propertyMap := propertyMap - {"unread"};
        propertyMap := propertyMap["read" := true];
        unreadDelta := -1;
      }
      writeChanges := unreadDelta != 0;
    } else if name == "unread" {
      if (name in propertyMap && propertyMap[name]) && !value {
        propertyMap := propertyMap - {"unread"};
        propertyMap := propertyMap["read" := true];
        unreadDelta := -1;
      } else if !(name in propertyMap && propertyMap[name]) && value {
        propertyMap := propertyMap - {"read"};
        propertyMap := propertyMap["unread" := true];
        unreadDelta := 1;
      }
      writeChanges := unreadDelta != 0;
    } else {
      if (name in propertyMap && propertyMap[name]) && !value {
        propertyMap := propertyMap - {name};
        writeChanges := true;
      } else if !(name in propertyMap && propertyMap[name]) && value {
        propertyMap := propertyMap[name := true];
        writeChanges := true;
      }
    }
    assert propertyMap.Keys == PropertyChange(props, name, value).properties;

    newProperties, newUnreadCount := properties, unreadCount;
    if writeChanges {
      newProperties := StorageObjects.MapKeys(propertyMap);
      if unreadDelta != 0 {
        newUnreadCount := unreadCount + unreadDelta;
      }
    }
  }

  /** Without a clamp the counter can go below zero: clearing `unread`
      when the count is already 0. */
  lemma CounterCanGoNegative()
    ensures PropertyChange({"unread"}, "unread", false).unreadDelta == -1
    ensures 0 + PropertyChange({"unread"}, "unread", false).unreadDelta < 0
  {
  }

  datatype Folder = Folder(id: string, title: string)

  /** The folder part of `NewUserSubscriptions`: each folder gets its id
      from its key, and the root folder (empty id and title, "all items")
      is appended after the real ones. */
  method UserFolders(folders: seq<Folder>, folderKeyIds: seq<int64>) returns (r: seq<Folder>)
    requires |folderKeyIds| == |folders|
    ensures |r| == |folders| + 1
    ensures r[|folders|] == Folder("", "")
    ensures forall i :: 0 <= i < |folders| ==>
              r[i].title == folders[i].title && r[i].id == FormatId("folder", folderKeyIds[i])
  {
    var named := folders;
    var i := 0;
    while i < |named|
      invariant 0 <= i <= |named| == |folders|
      invariant forall k :: 0 <= k < i ==>
                  named[k].title == folders[k].title && named[k].id == FormatId("folder", folderKeyIds[k])
      invariant forall k :: i <= k < |named| ==> named[k] == folders[k]
    {
      named := named[i := named[i].(id := FormatId("folder", folderKeyIds[i]))];
      i := i + 1;
    }
    var allItems := Folder("", "");
    r := named + [allItems];
  }

  /** Every real folder's id reads back as a folder id with its key's
      integer id, and only the root folder has an empty id. */
  lemma UserFolderIds(folders: seq<Folder>, folderKeyIds: seq<int64>, r: seq<Folder>)
    requires |folderKeyIds| == |folders| && |r| == |folders| + 1 && r[|folders|] == Folder("", "")
    requires forall i :: 0 <= i < |folders| ==> r[i].id == FormatId("folder", folderKeyIds[i])
    ensures forall i :: 0 <= i < |folders| ==> UnformatId(r[i].id) == Ok(("folder", folderKeyIds[i]))
    ensures forall i :: 0 <= i < |r| ==> (r[i].id == "" <==> i == |folders|)
  {
    forall i | 0 <= i < |folders|
      ensures UnformatId(r[i].id) == Ok(("folder", folderKeyIds[i]))
    {
      FolderKindHasNoSeparator();
      UnformatFormatId("folder", folderKeyIds[i]);
    }
  }
}
