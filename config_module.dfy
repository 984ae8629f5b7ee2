/**
 * The configuration module: the settings stored in the `DB_CONFIG` JSON file are mirrored as
 * attributes of the module object, and `write_db_config_data` merges new values into the
 * stored ones. The file is passed in and out as its parsed contents (`None` when it cannot be
 * read back as a JSON document); what the single write attempt does is an input.
 */
module Config {
  import opened Wrappers
  import opened PyValues
  import opened Persistence

  /**
   * The merge loop of `write_db_config_data`: every key already stored takes the keyword
   * argument's value when one is given; keyword arguments with new keys are ignored.
   */
  method MergeStoredKeys(configData: Dict, kwargs: Dict) returns (merged: Dict)
    ensures merged.Keys == configData.Keys
    ensures forall k :: k in configData && k in kwargs ==> merged[k] == kwargs[k]
    ensures forall k :: k in configData && k !in kwargs ==> merged[k] == configData[k]
  {
    merged := configData;
    var todo := configData.Keys;
    while todo != {}
      invariant todo <= configData.Keys && merged.Keys == configData.Keys
      invariant forall k :: k in todo ==> merged[k] == configData[k]
      invariant forall k :: k in configData && k !in todo ==> merged[k] == if k in kwargs then kwargs[k] else configData[k]
      decreases todo
    {
      var k :| k in todo;
      if k in kwargs {
        merged := merged[k := kwargs[k]];
      }
      todo := todo - {k};
    }
  }

  /** The module object `config`, whose attributes are set dynamically from the stored settings. */
  class ConfigModule {
    /** The module's data attributes: `PORT`, `LOG_LEVEL`, ... and every stored setting. */
    var attrs: Dict

    /**
     * Importing the module: the attributes read from the environment, then one attribute per
     * key of the stored configuration.
     */
    constructor (envAttrs: Dict, stored: Dict)
      ensures attrs == envAttrs + stored
    {
      attrs := envAttrs;
      new;
      SetDynamicModuleAttrs(stored);
    }

    /** `_set_dynamic_module_attrs`: one `setattr` per key, to that key's value; other attributes stay. */
    method SetDynamicModuleAttrs(dynamicAttrs: Dict)
      modifies this`attrs
      ensures attrs == old(attrs) + dynamicAttrs
    {
      var todo := dynamicAttrs.Keys;
      while todo != {}
        invariant todo <= dynamicAttrs.Keys
        invariant attrs == old(attrs) + map k | k in dynamicAttrs.Keys - todo :: dynamicAttrs[k]
        decreases todo
      {
        var k :| k in todo;
        attrs := attrs[k := dynamicAttrs[k]];
        todo := todo - {k};
      }
      assert dynamicAttrs == map k | k in dynamicAttrs.Keys - todo :: dynamicAttrs[k];
    }

    /**
     * `write_db_config_data(**kwargs)`. Reading the stored file raises when it cannot be read.
     * Otherwise the merge of the keyword arguments into the stored keys is returned whatever the
     * one write attempt does: the file and the module attributes take the merged values only when
     * it writes the document; an attempt that fails after `open(DB_CONFIG, 'w')` leaves the file
     * empty, so unreadable, and the attributes as they were.
     */
    method WriteDbConfigData(dbFile: Option<Dict>, kwargs: Dict, write: WriteAttempt)
      returns (r: Result<Dict, PyError>, dbFile': Option<Dict>)
      modifies this`attrs
      ensures dbFile.None? ==> r == Err(FileNotFoundError("DB_CONFIG")) && dbFile' == dbFile && attrs == old(attrs)
      ensures dbFile.Some? ==>
        && r.Ok? && r.value.Keys == dbFile.value.Keys
        && (forall k :: k in r.value ==> r.value[k] == if k in kwargs then kwargs[k] else dbFile.value[k])
        && (write == Written ==> dbFile' == Some(r.value) && attrs == old(attrs) + r.value)
        && (write == Failed ==> dbFile' == dbFile && attrs == old(attrs))
        && (write == Truncated ==> dbFile' == None && attrs == old(attrs))
    {
      if dbFile.None? {
        return Err(FileNotFoundError("DB_CONFIG")), dbFile;
      }
      var configData := MergeStoredKeys(dbFile.value, kwargs);
      dbFile' := dbFile;
      if write == Written {
        dbFile' := Some(configData);
        SetDynamicModuleAttrs(configData);
      } else if write == Truncated {
        dbFile' := None;
      }
      r := Ok(configData);
    }
  }
}
