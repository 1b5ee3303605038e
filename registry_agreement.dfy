/**
 * The two command tables side by side: `rex_commands()` of the mixins and
 * the `commands` constant of rex-utils register the same mongo and redis
 * templates; only the mixins know the `git` tool.
 */
module RegistryAgreement {
  import opened Wrappers
  import opened CommandRegistry
  import RexMixins
  import RexUtils

  /** The mongo actions of both tables are the same templates. */
  lemma MongoAgrees()
    ensures RexMixins.RexCommands()["mongo"] == RexUtils.Commands["mongo"]
  {
  }

  /** The redis actions of both tables are the same templates. */
  lemma RedisAgrees()
    ensures RexMixins.RexCommands()["redis"] == RexUtils.Commands["redis"]
  {
  }

  /**
   * Outside `git`, a lookup in either table gives the same answer, hits and
   * misses alike; `git` lookups fail in the rex-utils table.
   */
  lemma LookupAgrees(tool: string, action: string)
    ensures tool != "git" ==>
      Lookup(RexMixins.RexCommands(), tool, action) == Lookup(RexUtils.Commands, tool, action)
    ensures Lookup(RexUtils.Commands, "git", action) == None
  {
  }

  /** In both tables, the mongo list, count and drop templates open with `mongo {{dbname}} `. */
  lemma MongoTemplatesOpenWithToken(action: string)
    requires action in {"list", "count", "drop"}
    ensures "mongo " + DbNameToken + " " <= RexUtils.Commands["mongo"][action]
    ensures "mongo " + DbNameToken + " " <= RexMixins.RexCommands()["mongo"][action]
  {
    MongoAgrees();
    var head := "mongo " + DbNameToken;
    if action == "list" {
      RexUtils.MongoListLayout();
      SpaceAfter(head, " --quiet --eval ", RexUtils.Commands["mongo"][action]);
    } else if action == "count" {
      RexUtils.MongoCountLayout();
      SpaceAfter(head, " --quiet --eval ", RexUtils.Commands["mongo"][action]);
    } else {
      RexUtils.MongoDropLayout();
      SpaceAfter(head, " --eval \"db.getCollectionNames()", RexUtils.Commands["mongo"][action]);
    }
  }

  /** A text that starts with `head` and then a piece opening with a space starts with `head + " "`. */
  lemma SpaceAfter(head: string, piece: string, s: string)
    requires head + piece <= s
    requires piece != [] && piece[0] == ' '
    ensures head + " " <= s
  {
  }
}
