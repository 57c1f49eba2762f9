/**
  * The refined record: the `UserActivity` table of the output database.
  * Each column is a string except the integer key `id`, which the store's
  * autoincrement assigns and which is therefore not part of a record built
  * from a CSV row.
  */
module Refined {
  import opened Wrappers

  /** One viewing-activity event as handed to the store (everything but `id`). */
  datatype UserActivity = UserActivity(
    address: string,
    profileName: string,
    startTime: string,
    duration: Option<string>,
    attributes: Option<string>,
    title: Option<string>,
    supplementalVideoType: Option<string>,
    deviceType: Option<string>,
    bookmark: Option<string>,
    latestBookmark: Option<string>,
    country: Option<string>)

  datatype SqlType = Integer | String

  /** One column definition of the declarative model. */
  datatype Column = Column(name: string, sqlType: SqlType, primaryKey: bool, autoincrement: bool, nullable: bool)

  /** `__tablename__` of the declarative model. */
  const TableName: string := "user_activities"

  /** The primary key: an integer the store assigns; a primary key is never null. */
  const IdColumn: Column := Column("id", Integer, true, true, false)

  function DataColumn(name: string, nullable: bool): Column {
    Column(name, String, false, false, nullable)
  }

  /** The columns of `user_activities`, in declaration order. */
  function Columns(): seq<Column> {
    [ IdColumn,
      DataColumn("address", false),
      DataColumn("profile_name", false),
      DataColumn("start_time", false),
      DataColumn("duration", true),
      DataColumn("attributes", true),
      DataColumn("title", true),
      DataColumn("supplemental_video_type", true),
      DataColumn("device_type", true),
      DataColumn("bookmark", true),
      DataColumn("latest_bookmark", true),
      DataColumn("country", true) ]
  }

  /** The value a record puts in each data column, keyed by column name; `None` is SQL NULL. */
  function ColumnValues(a: UserActivity): map<string, Option<string>> {
    map[
      "address" := Some(a.address),
      "profile_name" := Some(a.profileName),
      "start_time" := Some(a.startTime),
      "duration" := a.duration,
      "attributes" := a.attributes,
      "title" := a.title,
      "supplemental_video_type" := a.supplementalVideoType,
      "device_type" := a.deviceType,
      "bookmark" := a.bookmark,
      "latest_bookmark" := a.latestBookmark,
      "country" := a.country]
  }

  /** The record with every nullable column left NULL. */
  function Sparse(address: string, profileName: string, startTime: string): (a: UserActivity)
    ensures forall name | name in ColumnValues(a) :: ColumnValues(a)[name].None? <==>
      name !in {"address", "profile_name", "start_time"}
  {
    UserActivity(address, profileName, startTime, None, None, None, None, None, None, None, None)
  }

  /**
    * The table `user_activities` is `id` followed by exactly the eleven
    * data columns a record fills: `id` is the integer autoincrement primary key and no record
    * carries it; every other column is a plain string column, and the
    * names are pairwise distinct.
    */
  lemma ColumnsAreIdAndRecordFields(a: UserActivity)
    ensures TableName == "user_activities"
    ensures |Columns()| == 12
    ensures Columns()[0] == IdColumn && IdColumn.name !in ColumnValues(a)
    ensures IdColumn.sqlType == Integer && IdColumn.primaryKey && IdColumn.autoincrement && !IdColumn.nullable
    ensures forall i | 1 <= i < |Columns()| ::
      Columns()[i].sqlType == String && !Columns()[i].primaryKey && !Columns()[i].autoincrement
    ensures forall i | 1 <= i < |Columns()| :: Columns()[i].name in ColumnValues(a)
    ensures forall name | name in ColumnValues(a) :: exists i | 1 <= i < |Columns()| :: Columns()[i].name == name
  {
    var cs := Columns();
    forall name | name in ColumnValues(a) ensures exists i | 1 <= i < |cs| :: cs[i].name == name {
      var i :=
        if name == "address" then 1 else if name == "profile_name" then 2
        else if name == "start_time" then 3 else if name == "duration" then 4
        else if name == "attributes" then 5 else if name == "title" then 6
        else if name == "supplemental_video_type" then 7 else if name == "device_type" then 8
        else if name == "bookmark" then 9 else if name == "latest_bookmark" then 10 else 11;
      assert cs[i].name == name;
    }
  }

  /** No two columns of the table share a name. */
  lemma ColumnNamesDistinct()
    ensures forall i, j | 0 <= i < j < |Columns()| :: Columns()[i].name != Columns()[j].name
  {
  }

  /**
    * A data column is nullable exactly when some record can leave it NULL:
    * `address`, `profile_name` and `start_time` are always filled, the
    * other eight may be absent.
    */
  lemma NullableExactlyWhenOptional(a: UserActivity)
    ensures forall i | 1 <= i < |Columns()| ::
      Columns()[i].name in ColumnValues(a) &&
      (ColumnValues(a)[Columns()[i].name].None? ==> Columns()[i].nullable)
    ensures forall i | 1 <= i < |Columns()| ::
      Columns()[i].nullable ==> exists b: UserActivity :: ColumnValues(b)[Columns()[i].name].None?
  {
    var b := Sparse(a.address, a.profileName, a.startTime);
    forall i | 1 <= i < |Columns()| && Columns()[i].nullable
      ensures exists b: UserActivity :: ColumnValues(b)[Columns()[i].name].None?
    {
      assert ColumnValues(b)[Columns()[i].name].None?;
    }
  }
}
