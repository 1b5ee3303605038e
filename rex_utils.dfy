/**
 * The `commands` registry exported by rex-utils: the shell commands that
 * the rex-* command-line tools run against MongoDB and Redis. Templates
 * longer than a line are written as concatenations of literal pieces; the
 * pieces join to exactly the registered strings.
 */
module RexUtils {
  import opened Wrappers
  import opened CommandRegistry

  /** The exported `commands` object: a `mongo` and a `redis` tool, no `git`. */
  const Commands: Registry := map[
    "mongo" := map[
      "list" :=
        "mongo {{dbname}}" + " --quiet --eval " + "\"printjson(db.getCollectionNames())\"",
      "count" :=
        "mongo {{dbname}}" + " --quiet --eval " + "\"printjson(db.getCollectionNames()"
        + ".forEach(function(coll)" + "{printjson(coll+\"-\"+db[coll].count())" + "}))\"",
      "drop" :=
        "mongo {{dbname}}" + " --eval \"db.getCollectionNames()" + ".forEach( function(coll) "
        + "{ if(coll!='system.indexes') " + "{ db[coll].drop(); " + "db[coll].dropIndexes()}})\"",
      "snapshot" := "",
      "restore" := ""
    ],
    "redis" := map[
      "count" := "redis-cli keys \"*\" | wc -l",
      "clear" := "redis-cli flushall"
    ]
  ]

  /** The registry has exactly the two tools `mongo` and `redis`. */
  lemma CommandsTools()
    ensures Commands.Keys == {"mongo", "redis"}
  {
  }

  /**
   * `mongo` has exactly the actions list, count, drop, snapshot and restore;
   * snapshot and restore are registered but empty.
   */
  lemma MongoActions(action: string)
    ensures Lookup(Commands, "mongo", action).Some?
        <==> action in {"list", "count", "drop", "snapshot", "restore"}
    ensures Lookup(Commands, "mongo", "snapshot") == Some("")
    ensures Lookup(Commands, "mongo", "restore") == Some("")
  {
  }

  /** There is no `git` tool here: every `git` lookup finds nothing. */
  lemma NoGitTool(action: string)
    ensures Lookup(Commands, "git", action) == None
  {
  }

  /** The two redis commands are fixed strings without any placeholder. */
  lemma RedisCommandsLiteral()
    ensures Lookup(Commands, "redis", "count") == Some("redis-cli keys \"*\" | wc -l")
    ensures Lookup(Commands, "redis", "clear") == Some("redis-cli flushall")
    ensures '{' !in Commands["redis"]["count"] && '{' !in Commands["redis"]["clear"]
  {
  }

  /** The mongo templates open with `mongo ` and the `{{dbname}}` token. */
  lemma MongoHead()
    ensures "mongo {{dbname}}" == "mongo " + DbNameToken
    ensures BraceSafe("mongo ")
  {
  }

  /** mongo list: `mongo `, the token, and two brace-safe pieces. */
  lemma MongoListLayout()
    ensures Commands["mongo"]["list"] == "mongo " + DbNameToken + " --quiet --eval "
      + "\"printjson(db.getCollectionNames())\""
    ensures BraceSafe(" --quiet --eval ") && BraceSafe("\"printjson(db.getCollectionNames())\"")
  {
    MongoHead();
  }

  /** mongo list carries the `{{dbname}}` token exactly once. */
  lemma MongoListTokenOnce()
    ensures Occurrences(Commands["mongo"]["list"], DbNameToken) == 1
  {
    MongoHead();
    MongoListLayout();
    DbNameTokenShape();
    TokenOnceTwo("mongo ", DbNameToken, " --quiet --eval ", "\"printjson(db.getCollectionNames())\"");
  }

  /** mongo count: `mongo `, the token, and five brace-safe pieces. */
  lemma MongoCountLayout()
    ensures Commands["mongo"]["count"] == "mongo " + DbNameToken + " --quiet --eval "
      + "\"printjson(db.getCollectionNames()" + ".forEach(function(coll)"
      + "{printjson(coll+\"-\"+db[coll].count())" + "}))\""
    ensures BraceSafe(" --quiet --eval ") && BraceSafe("\"printjson(db.getCollectionNames()")
    ensures BraceSafe(".forEach(function(coll)") && BraceSafe("{printjson(coll+\"-\"+db[coll].count())")
    ensures BraceSafe("}))\"")
  {
    MongoHead();
  }

  /** mongo count carries the `{{dbname}}` token exactly once. */
  lemma MongoCountTokenOnce()
    ensures Occurrences(Commands["mongo"]["count"], DbNameToken) == 1
  {
    MongoHead();
    MongoCountLayout();
    DbNameTokenShape();
    TokenOnceFive("mongo ", DbNameToken, " --quiet --eval ", "\"printjson(db.getCollectionNames()",
      ".forEach(function(coll)", "{printjson(coll+\"-\"+db[coll].count())", "}))\"");
  }

  /** mongo drop: `mongo `, the token, and five brace-safe pieces. */
  lemma MongoDropLayout()
    ensures Commands["mongo"]["drop"] == "mongo " + DbNameToken + " --eval \"db.getCollectionNames()"
      + ".forEach( function(coll) " + "{ if(coll!='system.indexes') " + "{ db[coll].drop(); "
      + "db[coll].dropIndexes()}})\""
    ensures BraceSafe(" --eval \"db.getCollectionNames()") && BraceSafe(".forEach( function(coll) ")
    ensures BraceSafe("{ if(coll!='system.indexes') ") && BraceSafe("{ db[coll].drop(); ")
    ensures BraceSafe("db[coll].dropIndexes()}})\"")
  {
    MongoHead();
  }

  /** mongo drop carries the `{{dbname}}` token exactly once. */
  lemma MongoDropTokenOnce()
    ensures Occurrences(Commands["mongo"]["drop"], DbNameToken) == 1
  {
    MongoHead();
    MongoDropLayout();
    DbNameTokenShape();
    TokenOnceFive("mongo ", DbNameToken, " --eval \"db.getCollectionNames()", ".forEach( function(coll) ",
      "{ if(coll!='system.indexes') ", "{ db[coll].drop(); ", "db[coll].dropIndexes()}})\"");
  }
}
