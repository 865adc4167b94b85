/** The two constant rule bundles of `MAPITagsScraper/nameNormalizer.py`:
    the word splitter (`wordsSplitterFilters`), which separates joined
    words, and the abbreviation expander (`filters`). Long rule lists are
    written as consecutive runs of a few rules each, so that the facts
    every rule satisfies are checked one run at a time; the list itself is
    the concatenation of its runs, in declaration order. */
module RuleTables {
  import opened Strings
  import opened Classifier
  import opened FilterBanks

  /** `wordsSplitterFilters`. */
  const WordsSplitterFilters: Bundle := Bundle(
    map[PrTag := WordsSplitterPrTag, PidTag := WordsSplitterPidTag, PTag := WordsSplitterPTag],
    WordsSplitterAny)

  /** `filters`. */
  const Filters: Bundle := Bundle(
    map[PrTag := AbbreviationsPrTag, PidTag := AbbreviationsPidTag],
    AbbreviationsAny)

  /** The `PR_` word-splitter rules, in declaration order. */
  const WordsSplitterPrTag: seq<Rule> :=
    WordsSplitterPrTag1 + WordsSplitterPrTag2 + WordsSplitterPrTag3 + WordsSplitterPrTag4 +
    WordsSplitterPrTag5 + WordsSplitterPrTag6 + WordsSplitterPrTag7 + WordsSplitterPrTag8 +
    WordsSplitterPrTag9 + WordsSplitterPrTag10 + WordsSplitterPrTag11 + WordsSplitterPrTag12 +
    WordsSplitterPrTag13 + WordsSplitterPrTag14 + WordsSplitterPrTag15 +
    WordsSplitterPrTag16 + WordsSplitterPrTag17 + WordsSplitterPrTag18

  const WordsSplitterPrTag1: seq<Rule> := [
    Rule("emsmdb", "ems_mdb"),
    Rule("addrtype", "addr_type"),
    Rule("oraddress", "or_address"),
    Rule("storeeid", "store_eid"),
    Rule("_svreid", "_svr_eid"),
    Rule("seqid", "seq_id")
  ]

  const WordsSplitterPrTag2: seq<Rule> := [
    Rule("draftid", "draft_id"),
    Rule("srchid", "srch_id"),
    Rule("oflid", "ofl_id"),
    Rule("entryid", "entry_id"),
    Rule("linkid", "link_id"),
    Rule("replacetime", "replace_time")
  ]

  const WordsSplitterPrTag3: seq<Rule> := [
    Rule("trackstatus", "track_status"),
    Rule("clientid", "client_id"),
    Rule("parentid", "parent_id"),
    Rule("enabledon", "enabled_on"),
    Rule("onserver", "on_server"),
    Rule("schdinfo_", "schd_info_")
  ]

  const WordsSplitterPrTag4: seq<Rule> := [
    Rule("_freebusy_", "_free_busy_"),
    Rule("_mtsout_", "_mts_out_"),
    Rule("_mtsin_", "_mts_in_"),
    Rule("xmlstream", "xml_stream"),
    Rule("containerid", "container_id"),
    Rule("templateid", "template_id")
  ]

  const WordsSplitterPrTag5: seq<Rule> := [
    Rule("proposedendtime", "proposed_end_time"),
    Rule("proposedstarttime", "proposed_starttime"),
    Rule("starttime", "start_time"),
    Rule("contactphoto", "contact_photo"),
    Rule("freebusy", "free_busy"),
    Rule("sendpost", "send_post")
  ]

  const WordsSplitterPrTag6: seq<Rule> := [
    Rule("readpost", "read_post"),
    Rule("reportnote", "report_note"),
    Rule("sendnote", "send_note"),
    Rule("readnote", "read_note"),
    Rule("endtxt", "end_txt"),
    Rule("begintxt", "begin_txt")
  ]

  const WordsSplitterPrTag7: seq<Rule> := [
    Rule("bodytag", "body_tag"),
    Rule("migrateprofile", "migrate_profile"),
    Rule("changenum", "change_num"),
    Rule("versionhistory", "version_history"),
    Rule("versionskeleton", "version_skeleton"),
    Rule("serverid", "server_id")
  ]

  const WordsSplitterPrTag8: seq<Rule> := [
    Rule("subitemid", "subitem_id"),
    Rule("inetmail", "inet_mail"),
    Rule("dotstuff", "dot_stuff"),
    Rule("newsfeed", "news_feed"),
    Rule("peruser", "per_user"),
    Rule("mailbeat", "mail_beat")
  ]

  const WordsSplitterPrTag9: seq<Rule> := [
    Rule("hotsite", "hot_site"),
    Rule("endtime", "end_time"),
    Rule("fixfont", "fix_font"),
    Rule("ccwrap", "cc_wrap"),
    Rule("metatag", "meta_tag"),
    Rule("iconurl", "icon_url")
  ]

  const WordsSplitterPrTag10: seq<Rule> := [
    Rule("itemproc", "item_proc"),
    Rule("viewinfo", "view_info"),
    Rule("displayname", "display_name"),
    Rule("fxsrcstream", "fx_src_stream"),
    Rule("fxdeststream", "fx_dest_stream"),
    Rule("othermailbox", "other_mailbox")
  ]

  const WordsSplitterPrTag11: seq<Rule> := [
    Rule("viewprivate", "view_private"),
    Rule("foldertype", "folder_type"),
    Rule("viewtype", "view_type"),
    Rule("ostid", "ost_id"),
    Rule("shareddata", "shared_data"),
    Rule("notfound", "not_found")
  ]

  const WordsSplitterPrTag12: seq<Rule> := [
    Rule("mapiuid", "mapi_uid"),
    Rule("mapiform", "mapi_form"),
    Rule("phonebook", "phone_book"),
    Rule("testclsid", "test_clsid"),
    Rule("labeleduri", "labeled_uri"),
    Rule("dispname", "disp_name")
  ]

  const WordsSplitterPrTag13: seq<Rule> := [
    Rule("syncevent", "sync_event"),
    Rule("slowlink", "slow_link"),
    Rule("dialup", "dial_up"),
    Rule("waitfor", "wait_for"),
    Rule("mimewrap", "mime_wrap"),
    Rule("tcpip", "tcp_ip")
  ]

  const WordsSplitterPrTag14: seq<Rule> := [
    Rule("traceinfo", "trace_info"),
    Rule("spamtype", "spam_type"),
    Rule("userfields", "user_fields"),
    Rule("viewlist", "view_list"),
    Rule("clearprops", "clear_props"),
    Rule("logfile", "log_file")
  ]

  const WordsSplitterPrTag15: seq<Rule> := [
    Rule("deltax", "delta_x"),
    Rule("deltay", "delta_y"),
    Rule("xpos", "x_pos"),
    Rule("ypos", "y_pos"),
    Rule("mailfrom", "mail_from"),
    Rule("datainit", "data_init")
  ]

  const WordsSplitterPrTag16: seq<Rule> := [
    Rule("dataterm", "data_term"),
    Rule("outq_", "out_q_"),
    Rule("inq_", "in_q_"),
    Rule("datablock", "data_block"),
    Rule("viewflags", "view_flags"),
    Rule("saveas", "save_as")
  ]

  const WordsSplitterPrTag17: seq<Rule> := [
    Rule("folderid", "folder_id"),
    Rule("portno", "port_no"),
    Rule("bifinfo", "bif_info"),
    Rule("msgtracking", "msg_tracking"),
    Rule("autoresponse", "auto_response"),
    Rule("favfld", "fav_fld")
  ]

  const WordsSplitterPrTag18: seq<Rule> := [
    Rule("bodypart", "body_part"),
    Rule("listinfo", "list_info"),
    Rule("reqcn", "req_cn"),
    Rule("reqname", "req_name"),
    Rule("insadmin", "ins_admin")
  ]

  /** The `PidTag` word-splitter rules. */
  const WordsSplitterPidTag: seq<Rule> := [
    Rule("_un_modified", "_unmodified"),
    Rule("msgid", "msg_id"),
    Rule("itemid", "item_id"),
    Rule("replid", "repl_id"),
    Rule("guid", "guid_")
  ]

  /** The `ptag` word-splitter rules. */
  const WordsSplitterPTag: seq<Rule> := [
    Rule("replid", "repl_id")
  ]

  /** The word-splitter rules every kind gets, last. */
  const WordsSplitterAny: seq<Rule> :=
    WordsSplitterAny1 + WordsSplitterAny2 + WordsSplitterAny3 + WordsSplitterAny4 +
    WordsSplitterAny5

  const WordsSplitterAny1: seq<Rule> := [
    Rule("temporaryflags", "temporary_flags"),
    Rule("errorinfo", "error_info"),
    Rule("msgsize", "msg_size"),
    Rule("attachlist", "attach_list"),
    Rule("changenum", "change_num"),
    Rule("addrbook", "addr_book")
  ]

  const WordsSplitterAny2: seq<Rule> := [
    Rule("rootdir", "root_dir"),
    Rule("msgclass", "msg_class"),
    Rule("messageclass", "message_class"),
    Rule("mtsid", "mts_id"),
    Rule("sentmail", "sent_mail")
  ]

  const WordsSplitterAny3: seq<Rule> := [
    Rule("to_do_", "todo_"),
    Rule("subfolder", "sub_folder"),
    Rule("rowid", "row_id"),
    Rule("recurrenceid", "recurrence_id"),
    Rule("readonly", "read_only")
  ]

  const WordsSplitterAny4: seq<Rule> := [
    Rule("pathname", "path_name"),
    Rule("templateid", "template_id"),
    Rule("datatype", "data_type"),
    Rule("codepage", "code_page"),
    Rule("_replid", "_repl_id")
  ]

  const WordsSplitterAny5: seq<Rule> := [
    Rule("webviewinfo", "webview_info"),
    Rule("webview", "web_view"),
    Rule("mailuser", "mail_user"),
    Rule("longterm", "long_term"),
    Rule("newsfeed", "news_feed")
  ]

  /** The `PR_` abbreviation rules. */
  const AbbreviationsPrTag: seq<Rule> :=
    AbbreviationsPrTag1 + AbbreviationsPrTag2 + AbbreviationsPrTag3 + AbbreviationsPrTag4 +
    AbbreviationsPrTag5 + AbbreviationsPrTag6 + AbbreviationsPrTag7

  const AbbreviationsPrTag1: seq<Rule> := [
    Rule("_oab_", "_offline_address_book_"),
    Rule("ems_ab_", "address_book_"),
    Rule("_addr_", "_address_")
  ]

  const AbbreviationsPrTag2: seq<Rule> := [
    Rule("_auth_", "_authorized_"),
    Rule("_deliv_", "_delivery_"),
    Rule("abeid", "address_book_eid")
  ]

  const AbbreviationsPrTag3: seq<Rule> := [
    Rule("_eid", "_entry_id"),
    Rule("splus", "schd_plus"),
    Rule("_hab_", "_hier_")
  ]

  const AbbreviationsPrTag4: seq<Rule> := [
    Rule("_dl", "_distr_list"),
    Rule("_mhs_", "_message_handling_system_"),
    Rule("_mta", "_message_transfer_agent")
  ]

  const AbbreviationsPrTag5: seq<Rule> := [
    Rule("_reckey", "_record_key"),
    Rule("wb_sf_", "wb_search_folder_"),
    Rule("_cont_", "_content_")
  ]

  const AbbreviationsPrTag6: seq<Rule> := [
    Rule("_eid", "_entry_id"),
    Rule("loglev", "log_level")
  ]

  const AbbreviationsPrTag7: seq<Rule> := [
    Rule("vrfy", "verify"),
    Rule("_hdrs_", "_headers_")
  ]

  /** The `PidTag` abbreviation rules. */
  const AbbreviationsPidTag: seq<Rule> :=
    AbbreviationsPidTag1 + AbbreviationsPidTag2

  const AbbreviationsPidTag1: seq<Rule> := [
    Rule("security_descriptor", "nt_security_descriptor"),
    Rule("_distribution_list", "_distr_list"),
    Rule("_unauthorized_", "_unauth_")
  ]

  const AbbreviationsPidTag2: seq<Rule> := [
    Rule("_away", "oof"),
    Rule("_t_bl_", "_table_")
  ]

  /** The abbreviation rules every kind gets, last. */
  const AbbreviationsAny: seq<Rule> :=
    AbbreviationsAny1 + AbbreviationsAny2 + AbbreviationsAny3 + AbbreviationsAny4 +
    AbbreviationsAny5 + AbbreviationsAny6 + AbbreviationsAny7 + AbbreviationsAny8 +
    AbbreviationsAny9

  const AbbreviationsAny1: seq<Rule> := [
    Rule("appointment", "appt"),
    Rule("certificate", "cert"),
    Rule("recipient_", "rcpt_")
  ]

  const AbbreviationsAny2: seq<Rule> := [
    Rule("access_control_list_", "acl_"),
    Rule("hierarchical", "hier"),
    Rule("address", "addr")
  ]

  const AbbreviationsAny3: seq<Rule> := [
    Rule("message", "msg"),
    Rule("hasattach", "has_attachments"),
    Rule("_extended", "_ex")
  ]

  const AbbreviationsAny4: seq<Rule> := [
    Rule("_eid", "_entry_id"),
    Rule("_telephone_", "_phone_"),
    Rule("received_", "rcvd_")
  ]

  const AbbreviationsAny5: seq<Rule> := [
    Rule("number", "num"),
    Rule("_object_", "_obj_"),
    Rule("_message_", "_msg_")
  ]

  const AbbreviationsAny6: seq<Rule> := [
    Rule("internet", "inet"),
    Rule("acct", "account"),
    Rule("maximum", "max")
  ]

  const AbbreviationsAny7: seq<Rule> := [
    Rule("minimum", "min"),
    Rule("transmitable", "transmittable"),
    Rule("_binary", "_bin")
  ]

  const AbbreviationsAny8: seq<Rule> := [
    Rule("_mid_", "_msg_id_"),
    Rule("_cpid", "_code_page_id"),
    Rule("dam_", "deferred_action_message_")
  ]

  const AbbreviationsAny9: seq<Rule> := [
    Rule("attribute", "attr"),
    Rule("schedule_", "schd_")
  ]

  // ---------------------------------------------------------------------
  // Facts every rule satisfies
  // ---------------------------------------------------------------------

  /** One of the last two characters of `s` is not `_`. */
  predicate TailHasNonUnderscore(s: string)
  {
    |s| > 0 && (s[|s| - 1] != '_' || (|s| > 1 && s[|s| - 2] != '_'))
  }

  /** Every text of the bank has a character other than `_` among its last
      two. */
  predicate TailChecked(bank: seq<Rule>)
  {
    forall i :: 0 <= i < |bank| ==>
      TailHasNonUnderscore(bank[i].pattern) && TailHasNonUnderscore(bank[i].replacement)
  }

  lemma TailCheckedIsLettered(bank: seq<Rule>)
    requires TailChecked(bank)
    ensures AllLettered(bank)
  {
    forall i | 0 <= i < |bank| ensures Lettered(bank[i]) {
      var p, r := bank[i].pattern, bank[i].replacement;
      if p[|p| - 1] != '_' { assert p[|p| - 1] != '_'; } else { assert p[|p| - 2] != '_'; }
      if r[|r| - 1] != '_' { assert r[|r| - 1] != '_'; } else { assert r[|r| - 2] != '_'; }
    }
  }

  lemma WordsSplitterPrTag1Checked()
    ensures TailChecked(WordsSplitterPrTag1) && PatternsLongerThan(WordsSplitterPrTag1, 2)
  {
    forall i | 0 <= i < |WordsSplitterPrTag1|
      ensures TailHasNonUnderscore(WordsSplitterPrTag1[i].pattern) && TailHasNonUnderscore(WordsSplitterPrTag1[i].replacement)
      ensures |WordsSplitterPrTag1[i].pattern| > 2
    {
      if i == 0 {  }
      else if i == 1 {  }
      else if i == 2 {  }
      else if i == 3 {  }
      else if i == 4 {  }
      else if i == 5 {  }
    }
  }

  lemma WordsSplitterPrTag1Replacements()
    ensures LowerWordReplacements(WordsSplitterPrTag1)
  {
    forall i | 0 <= i < |WordsSplitterPrTag1|
      ensures AllIn(WordsSplitterPrTag1[i].replacement, IsLowerWordChar)
    {
      if i == 0 {  }
      else if i == 1 {  }
      else if i == 2 {  }
      else if i == 3 {  }
      else if i == 4 {  }
      else if i == 5 {  }
    }
  }

  lemma WordsSplitterPrTag2Checked()
    ensures TailChecked(WordsSplitterPrTag2) && PatternsLongerThan(WordsSplitterPrTag2, 2)
  {
    forall i | 0 <= i < |WordsSplitterPrTag2|
      ensures TailHasNonUnderscore(WordsSplitterPrTag2[i].pattern) && TailHasNonUnderscore(WordsSplitterPrTag2[i].replacement)
      ensures |WordsSplitterPrTag2[i].pattern| > 2
    {
      if i == 0 {  }
      else if i == 1 {  }
      else if i == 2 {  }
      else if i == 3 {  }
      else if i == 4 {  }
      else if i == 5 {  }
    }
  }

  lemma WordsSplitterPrTag2Replacements()
    ensures LowerWordReplacements(WordsSplitterPrTag2)
  {
    forall i | 0 <= i < |WordsSplitterPrTag2|
      ensures AllIn(WordsSplitterPrTag2[i].replacement, IsLowerWordChar)
    {
      if i == 0 {  }
      else if i == 1 {  }
      else if i == 2 {  }
      else if i == 3 {  }
      else if i == 4 {  }
      else if i == 5 {  }
    }
  }

  lemma WordsSplitterPrTag3Checked()
    ensures TailChecked(WordsSplitterPrTag3) && PatternsLongerThan(WordsSplitterPrTag3, 2)
  {
    forall i | 0 <= i < |WordsSplitterPrTag3|
      ensures TailHasNonUnderscore(WordsSplitterPrTag3[i].pattern) && TailHasNonUnderscore(WordsSplitterPrTag3[i].replacement)
      ensures |WordsSplitterPrTag3[i].pattern| > 2
    {
      if i == 0 {  }
      else if i == 1 {  }
      else if i == 2 {  }
      else if i == 3 {  }
      else if i == 4 {  }
      else if i == 5 {  }
    }
  }

  lemma WordsSplitterPrTag3Replacements()
    ensures LowerWordReplacements(WordsSplitterPrTag3)
  {
    forall i | 0 <= i < |WordsSplitterPrTag3|
      ensures AllIn(WordsSplitterPrTag3[i].replacement, IsLowerWordChar)
    {
      if i == 0 {  }
      else if i == 1 {  }
      else if i == 2 {  }
      else if i == 3 {  }
      else if i == 4 {  }
      else if i == 5 {  }
    }
  }

  lemma WordsSplitterPrTag4Checked()
    ensures TailChecked(WordsSplitterPrTag4) && PatternsLongerThan(WordsSplitterPrTag4, 2)
  {
    forall i | 0 <= i < |WordsSplitterPrTag4|
      ensures TailHasNonUnderscore(WordsSplitterPrTag4[i].pattern) && TailHasNonUnderscore(WordsSplitterPrTag4[i].replacement)
      ensures |WordsSplitterPrTag4[i].pattern| > 2
    {
      if i == 0 {  }
      else if i == 1 {  }
      else if i == 2 {  }
      else if i == 3 {  }
      else if i == 4 {  }
      else if i == 5 {  }
    }
  }

  lemma WordsSplitterPrTag4Replacements()
    ensures LowerWordReplacements(WordsSplitterPrTag4)
  {
    forall i | 0 <= i < |WordsSplitterPrTag4|
      ensures AllIn(WordsSplitterPrTag4[i].replacement, IsLowerWordChar)
    {
      if i == 0 {  }
      else if i == 1 {  }
      else if i == 2 {  }
      else if i == 3 {  }
      else if i == 4 {  }
      else if i == 5 {  }
    }
  }

  lemma WordsSplitterPrTag5Checked()
    ensures TailChecked(WordsSplitterPrTag5) && PatternsLongerThan(WordsSplitterPrTag5, 2)
  {
    forall i | 0 <= i < |WordsSplitterPrTag5|
      ensures TailHasNonUnderscore(WordsSplitterPrTag5[i].pattern) && TailHasNonUnderscore(WordsSplitterPrTag5[i].replacement)
      ensures |WordsSplitterPrTag5[i].pattern| > 2
    {
      if i == 0 {  }
      else if i == 1 {  }
      else if i == 2 {  }
      else if i == 3 {  }
      else if i == 4 {  }
      else if i == 5 {  }
    }
  }

  lemma WordsSplitterPrTag5Replacements()
    ensures LowerWordReplacements(WordsSplitterPrTag5)
  {
    forall i | 0 <= i < |WordsSplitterPrTag5|
      ensures AllIn(WordsSplitterPrTag5[i].replacement, IsLowerWordChar)
    {
      if i == 0 {  }
      else if i == 1 {  }
      else if i == 2 {  }
      else if i == 3 {  }
      else if i == 4 {  }
      else if i == 5 {  }
    }
  }

  lemma WordsSplitterPrTag6Checked()
    ensures TailChecked(WordsSplitterPrTag6) && PatternsLongerThan(WordsSplitterPrTag6, 2)
  {
    forall i | 0 <= i < |WordsSplitterPrTag6|
      ensures TailHasNonUnderscore(WordsSplitterPrTag6[i].pattern) && TailHasNonUnderscore(WordsSplitterPrTag6[i].replacement)
      ensures |WordsSplitterPrTag6[i].pattern| > 2
    {
      if i == 0 {  }
      else if i == 1 {  }
      else if i == 2 {  }
      else if i == 3 {  }
      else if i == 4 {  }
      else if i == 5 {  }
    }
  }

  lemma WordsSplitterPrTag6Replacements()
    ensures LowerWordReplacements(WordsSplitterPrTag6)
  {
    forall i | 0 <= i < |WordsSplitterPrTag6|
      ensures AllIn(WordsSplitterPrTag6[i].replacement, IsLowerWordChar)
    {
      if i == 0 {  }
      else if i == 1 {  }
      else if i == 2 {  }
      else if i == 3 {  }
      else if i == 4 {  }
      else if i == 5 {  }
    }
  }

  lemma WordsSplitterPrTag7Checked()
    ensures TailChecked(WordsSplitterPrTag7) && PatternsLongerThan(WordsSplitterPrTag7, 2)
  {
    forall i | 0 <= i < |WordsSplitterPrTag7|
      ensures TailHasNonUnderscore(WordsSplitterPrTag7[i].pattern) && TailHasNonUnderscore(WordsSplitterPrTag7[i].replacement)
      ensures |WordsSplitterPrTag7[i].pattern| > 2
    {
      if i == 0 {  }
      else if i == 1 {  }
      else if i == 2 {  }
      else if i == 3 {  }
      else if i == 4 {  }
      else if i == 5 {  }
    }
  }

  lemma WordsSplitterPrTag7Replacements()
    ensures LowerWordReplacements(WordsSplitterPrTag7)
  {
    forall i | 0 <= i < |WordsSplitterPrTag7|
      ensures AllIn(WordsSplitterPrTag7[i].replacement, IsLowerWordChar)
    {
      if i == 0 {  }
      else if i == 1 {  }
      else if i == 2 {  }
      else if i == 3 {  }
      else if i == 4 {  }
      else if i == 5 {  }
    }
  }

  lemma WordsSplitterPrTag8Checked()
    ensures TailChecked(WordsSplitterPrTag8) && PatternsLongerThan(WordsSplitterPrTag8, 2)
  {
    forall i | 0 <= i < |WordsSplitterPrTag8|
      ensures TailHasNonUnderscore(WordsSplitterPrTag8[i].pattern) && TailHasNonUnderscore(WordsSplitterPrTag8[i].replacement)
      ensures |WordsSplitterPrTag8[i].pattern| > 2
    {
      if i == 0 {  }
      else if i == 1 {  }
      else if i == 2 {  }
      else if i == 3 {  }
      else if i == 4 {  }
      else if i == 5 {  }
    }
  }

  lemma WordsSplitterPrTag8Replacements()
    ensures LowerWordReplacements(WordsSplitterPrTag8)
  {
    forall i | 0 <= i < |WordsSplitterPrTag8|
      ensures AllIn(WordsSplitterPrTag8[i].replacement, IsLowerWordChar)
    {
      if i == 0 {  }
      else if i == 1 {  }
      else if i == 2 {  }
      else if i == 3 {  }
      else if i == 4 {  }
      else if i == 5 {  }
    }
  }

  lemma WordsSplitterPrTag9Checked()
    ensures TailChecked(WordsSplitterPrTag9) && PatternsLongerThan(WordsSplitterPrTag9, 2)
  {
    forall i | 0 <= i < |WordsSplitterPrTag9|
      ensures TailHasNonUnderscore(WordsSplitterPrTag9[i].pattern) && TailHasNonUnderscore(WordsSplitterPrTag9[i].replacement)
      ensures |WordsSplitterPrTag9[i].pattern| > 2
    {
      if i == 0 {  }
      else if i == 1 {  }
      else if i == 2 {  }
      else if i == 3 {  }
      else if i == 4 {  }
      else if i == 5 {  }
    }
  }

  lemma WordsSplitterPrTag9Replacements()
    ensures LowerWordReplacements(WordsSplitterPrTag9)
  {
    forall i | 0 <= i < |WordsSplitterPrTag9|
      ensures AllIn(WordsSplitterPrTag9[i].replacement, IsLowerWordChar)
    {
      if i == 0 {  }
      else if i == 1 {  }
      else if i == 2 {  }
      else if i == 3 {  }
      else if i == 4 {  }
      else if i == 5 {  }
    }
  }

  lemma WordsSplitterPrTag10Checked()
    ensures TailChecked(WordsSplitterPrTag10) && PatternsLongerThan(WordsSplitterPrTag10, 2)
  {
    forall i | 0 <= i < |WordsSplitterPrTag10|
      ensures TailHasNonUnderscore(WordsSplitterPrTag10[i].pattern) && TailHasNonUnderscore(WordsSplitterPrTag10[i].replacement)
      ensures |WordsSplitterPrTag10[i].pattern| > 2
    {
      if i == 0 {  }
      else if i == 1 {  }
      else if i == 2 {  }
      else if i == 3 {  }
      else if i == 4 {  }
      else if i == 5 {  }
    }
  }

  lemma WordsSplitterPrTag10Replacements()
    ensures LowerWordReplacements(WordsSplitterPrTag10)
  {
    forall i | 0 <= i < |WordsSplitterPrTag10|
      ensures AllIn(WordsSplitterPrTag10[i].replacement, IsLowerWordChar)
    {
      if i == 0 {  }
      else if i == 1 {  }
      else if i == 2 {  }
      else if i == 3 {  }
      else if i == 4 {  }
      else if i == 5 {  }
    }
  }

  lemma WordsSplitterPrTag11Checked()
    ensures TailChecked(WordsSplitterPrTag11) && PatternsLongerThan(WordsSplitterPrTag11, 2)
  {
    forall i | 0 <= i < |WordsSplitterPrTag11|
      ensures TailHasNonUnderscore(WordsSplitterPrTag11[i].pattern) && TailHasNonUnderscore(WordsSplitterPrTag11[i].replacement)
      ensures |WordsSplitterPrTag11[i].pattern| > 2
    {
      if i == 0 {  }
      else if i == 1 {  }
      else if i == 2 {  }
      else if i == 3 {  }
      else if i == 4 {  }
      else if i == 5 {  }
    }
  }

  lemma WordsSplitterPrTag11Replacements()
    ensures LowerWordReplacements(WordsSplitterPrTag11)
  {
    forall i | 0 <= i < |WordsSplitterPrTag11|
      ensures AllIn(WordsSplitterPrTag11[i].replacement, IsLowerWordChar)
    {
      if i == 0 {  }
      else if i == 1 {  }
      else if i == 2 {  }
      else if i == 3 {  }
      else if i == 4 {  }
      else if i == 5 {  }
    }
  }

  lemma WordsSplitterPrTag12Checked()
    ensures TailChecked(WordsSplitterPrTag12) && PatternsLongerThan(WordsSplitterPrTag12, 2)
  {
    forall i | 0 <= i < |WordsSplitterPrTag12|
      ensures TailHasNonUnderscore(WordsSplitterPrTag12[i].pattern) && TailHasNonUnderscore(WordsSplitterPrTag12[i].replacement)
      ensures |WordsSplitterPrTag12[i].pattern| > 2
    {
      if i == 0 {  }
      else if i == 1 {  }
      else if i == 2 {  }
      else if i == 3 {  }
      else if i == 4 {  }
      else if i == 5 {  }
    }
  }

  lemma WordsSplitterPrTag12Replacements()
    ensures LowerWordReplacements(WordsSplitterPrTag12)
  {
    forall i | 0 <= i < |WordsSplitterPrTag12|
      ensures AllIn(WordsSplitterPrTag12[i].replacement, IsLowerWordChar)
    {
      if i == 0 {  }
      else if i == 1 {  }
      else if i == 2 {  }
      else if i == 3 {  }
      else if i == 4 {  }
      else if i == 5 {  }
    }
  }

  lemma WordsSplitterPrTag13Checked()
    ensures TailChecked(WordsSplitterPrTag13) && PatternsLongerThan(WordsSplitterPrTag13, 2)
  {
    forall i | 0 <= i < |WordsSplitterPrTag13|
      ensures TailHasNonUnderscore(WordsSplitterPrTag13[i].pattern) && TailHasNonUnderscore(WordsSplitterPrTag13[i].replacement)
      ensures |WordsSplitterPrTag13[i].pattern| > 2
    {
      if i == 0 {  }
      else if i == 1 {  }
      else if i == 2 {  }
      else if i == 3 {  }
      else if i == 4 {  }
      else if i == 5 {  }
    }
  }

  lemma WordsSplitterPrTag13Replacements()
    ensures LowerWordReplacements(WordsSplitterPrTag13)
  {
    forall i | 0 <= i < |WordsSplitterPrTag13|
      ensures AllIn(WordsSplitterPrTag13[i].replacement, IsLowerWordChar)
    {
      if i == 0 {  }
      else if i == 1 {  }
      else if i == 2 {  }
      else if i == 3 {  }
      else if i == 4 {  }
      else if i == 5 {  }
    }
  }

  lemma WordsSplitterPrTag14Checked()
    ensures TailChecked(WordsSplitterPrTag14) && PatternsLongerThan(WordsSplitterPrTag14, 2)
  {
    forall i | 0 <= i < |WordsSplitterPrTag14|
      ensures TailHasNonUnderscore(WordsSplitterPrTag14[i].pattern) && TailHasNonUnderscore(WordsSplitterPrTag14[i].replacement)
      ensures |WordsSplitterPrTag14[i].pattern| > 2
    {
      if i == 0 {  }
      else if i == 1 {  }
      else if i == 2 {  }
      else if i == 3 {  }
      else if i == 4 {  }
      else if i == 5 {  }
    }
  }

  lemma WordsSplitterPrTag14Replacements()
    ensures LowerWordReplacements(WordsSplitterPrTag14)
  {
    forall i | 0 <= i < |WordsSplitterPrTag14|
      ensures AllIn(WordsSplitterPrTag14[i].replacement, IsLowerWordChar)
    {
      if i == 0 {  }
      else if i == 1 {  }
      else if i == 2 {  }
      else if i == 3 {  }
      else if i == 4 {  }
      else if i == 5 {  }
    }
  }

  lemma WordsSplitterPrTag15Checked()
    ensures TailChecked(WordsSplitterPrTag15) && PatternsLongerThan(WordsSplitterPrTag15, 2)
  {
    forall i | 0 <= i < |WordsSplitterPrTag15|
      ensures TailHasNonUnderscore(WordsSplitterPrTag15[i].pattern) && TailHasNonUnderscore(WordsSplitterPrTag15[i].replacement)
      ensures |WordsSplitterPrTag15[i].pattern| > 2
    {
      if i == 0 {  }
      else if i == 1 {  }
      else if i == 2 {  }
      else if i == 3 {  }
      else if i == 4 {  }
      else if i == 5 {  }
    }
  }

  lemma WordsSplitterPrTag15Replacements()
    ensures LowerWordReplacements(WordsSplitterPrTag15)
  {
    forall i | 0 <= i < |WordsSplitterPrTag15|
      ensures AllIn(WordsSplitterPrTag15[i].replacement, IsLowerWordChar)
    {
      if i == 0 {  }
      else if i == 1 {  }
      else if i == 2 {  }
      else if i == 3 {  }
      else if i == 4 {  }
      else if i == 5 {  }
    }
  }

  lemma WordsSplitterPrTag16Checked()
    ensures TailChecked(WordsSplitterPrTag16) && PatternsLongerThan(WordsSplitterPrTag16, 2)
  {
    forall i | 0 <= i < |WordsSplitterPrTag16|
      ensures TailHasNonUnderscore(WordsSplitterPrTag16[i].pattern) && TailHasNonUnderscore(WordsSplitterPrTag16[i].replacement)
      ensures |WordsSplitterPrTag16[i].pattern| > 2
    {
      if i == 0 {  }
      else if i == 1 {  }
      else if i == 2 {  }
      else if i == 3 {  }
      else if i == 4 {  }
      else if i == 5 {  }
    }
  }

  lemma WordsSplitterPrTag16Replacements()
    ensures LowerWordReplacements(WordsSplitterPrTag16)
  {
    forall i | 0 <= i < |WordsSplitterPrTag16|
      ensures AllIn(WordsSplitterPrTag16[i].replacement, IsLowerWordChar)
    {
      if i == 0 {  }
      else if i == 1 {  }
      else if i == 2 {  }
      else if i == 3 {  }
      else if i == 4 {  }
      else if i == 5 {  }
    }
  }

  lemma WordsSplitterPrTag17Checked()
    ensures TailChecked(WordsSplitterPrTag17) && PatternsLongerThan(WordsSplitterPrTag17, 2)
  {
    forall i | 0 <= i < |WordsSplitterPrTag17|
      ensures TailHasNonUnderscore(WordsSplitterPrTag17[i].pattern) && TailHasNonUnderscore(WordsSplitterPrTag17[i].replacement)
      ensures |WordsSplitterPrTag17[i].pattern| > 2
    {
      if i == 0 {  }
      else if i == 1 {  }
      else if i == 2 {  }
      else if i == 3 {  }
      else if i == 4 {  }
      else if i == 5 {  }
    }
  }

  lemma WordsSplitterPrTag17Replacements()
    ensures LowerWordReplacements(WordsSplitterPrTag17)
  {
    forall i | 0 <= i < |WordsSplitterPrTag17|
      ensures AllIn(WordsSplitterPrTag17[i].replacement, IsLowerWordChar)
    {
      if i == 0 {  }
      else if i == 1 {  }
      else if i == 2 {  }
      else if i == 3 {  }
      else if i == 4 {  }
      else if i == 5 {  }
    }
  }

  lemma WordsSplitterPrTag18Checked()
    ensures TailChecked(WordsSplitterPrTag18) && PatternsLongerThan(WordsSplitterPrTag18, 2)
  {
    forall i | 0 <= i < |WordsSplitterPrTag18|
      ensures TailHasNonUnderscore(WordsSplitterPrTag18[i].pattern) && TailHasNonUnderscore(WordsSplitterPrTag18[i].replacement)
      ensures |WordsSplitterPrTag18[i].pattern| > 2
    {
      if i == 0 {  }
      else if i == 1 {  }
      else if i == 2 {  }
      else if i == 3 {  }
      else if i == 4 {  }
    }
  }

  lemma WordsSplitterPrTag18Replacements()
    ensures LowerWordReplacements(WordsSplitterPrTag18)
  {
    forall i | 0 <= i < |WordsSplitterPrTag18|
      ensures AllIn(WordsSplitterPrTag18[i].replacement, IsLowerWordChar)
    {
      if i == 0 {  }
      else if i == 1 {  }
      else if i == 2 {  }
      else if i == 3 {  }
      else if i == 4 {  }
    }
  }

  lemma WordsSplitterPidTagChecked()
    ensures TailChecked(WordsSplitterPidTag) && PatternsLongerThan(WordsSplitterPidTag, 2)
  {
    forall i | 0 <= i < |WordsSplitterPidTag|
      ensures TailHasNonUnderscore(WordsSplitterPidTag[i].pattern) && TailHasNonUnderscore(WordsSplitterPidTag[i].replacement)
      ensures |WordsSplitterPidTag[i].pattern| > 2
    {
      if i == 0 {  }
      else if i == 1 {  }
      else if i == 2 {  }
      else if i == 3 {  }
      else if i == 4 {  }
    }
  }

  lemma WordsSplitterPidTagReplacements()
    ensures LowerWordReplacements(WordsSplitterPidTag)
  {
    forall i | 0 <= i < |WordsSplitterPidTag|
      ensures AllIn(WordsSplitterPidTag[i].replacement, IsLowerWordChar)
    {
      if i == 0 {  }
      else if i == 1 {  }
      else if i == 2 {  }
      else if i == 3 {  }
      else if i == 4 {  }
    }
  }

  lemma WordsSplitterPTagChecked()
    ensures TailChecked(WordsSplitterPTag) && PatternsLongerThan(WordsSplitterPTag, 2)
  {
    forall i | 0 <= i < |WordsSplitterPTag|
      ensures TailHasNonUnderscore(WordsSplitterPTag[i].pattern) && TailHasNonUnderscore(WordsSplitterPTag[i].replacement)
      ensures |WordsSplitterPTag[i].pattern| > 2
    {
      if i == 0 {  }
    }
  }

  lemma WordsSplitterPTagReplacements()
    ensures LowerWordReplacements(WordsSplitterPTag)
  {
    forall i | 0 <= i < |WordsSplitterPTag|
      ensures AllIn(WordsSplitterPTag[i].replacement, IsLowerWordChar)
    {
      if i == 0 {  }
    }
  }

  lemma WordsSplitterAny1Checked()
    ensures TailChecked(WordsSplitterAny1) && PatternsLongerThan(WordsSplitterAny1, 2)
  {
    forall i | 0 <= i < |WordsSplitterAny1|
      ensures TailHasNonUnderscore(WordsSplitterAny1[i].pattern) && TailHasNonUnderscore(WordsSplitterAny1[i].replacement)
      ensures |WordsSplitterAny1[i].pattern| > 2
    {
      if i == 0 {  }
      else if i == 1 {  }
      else if i == 2 {  }
      else if i == 3 {  }
      else if i == 4 {  }
      else if i == 5 {  }
    }
  }

  lemma WordsSplitterAny1Replacements()
    ensures LowerWordReplacements(WordsSplitterAny1)
  {
    forall i | 0 <= i < |WordsSplitterAny1|
      ensures AllIn(WordsSplitterAny1[i].replacement, IsLowerWordChar)
    {
      if i == 0 {  }
      else if i == 1 {  }
      else if i == 2 {  }
      else if i == 3 {  }
      else if i == 4 {  }
      else if i == 5 {  }
    }
  }

  lemma WordsSplitterAny2Checked()
    ensures TailChecked(WordsSplitterAny2) && PatternsLongerThan(WordsSplitterAny2, 2)
  {
    forall i | 0 <= i < |WordsSplitterAny2|
      ensures TailHasNonUnderscore(WordsSplitterAny2[i].pattern) && TailHasNonUnderscore(WordsSplitterAny2[i].replacement)
      ensures |WordsSplitterAny2[i].pattern| > 2
    {
      if i == 0 {  }
      else if i == 1 {  }
      else if i == 2 {  }
      else if i == 3 {  }
      else if i == 4 {  }
    }
  }

  lemma WordsSplitterAny2Replacements()
    ensures LowerWordReplacements(WordsSplitterAny2)
  {
    forall i | 0 <= i < |WordsSplitterAny2|
      ensures AllIn(WordsSplitterAny2[i].replacement, IsLowerWordChar)
    {
      if i == 0 {  }
      else if i == 1 {  }
      else if i == 2 {  }
      else if i == 3 {  }
      else if i == 4 {  }
    }
  }

  lemma WordsSplitterAny3Checked()
    ensures TailChecked(WordsSplitterAny3) && PatternsLongerThan(WordsSplitterAny3, 2)
  {
    forall i | 0 <= i < |WordsSplitterAny3|
      ensures TailHasNonUnderscore(WordsSplitterAny3[i].pattern) && TailHasNonUnderscore(WordsSplitterAny3[i].replacement)
      ensures |WordsSplitterAny3[i].pattern| > 2
    {
      if i == 0 {  }
      else if i == 1 {  }
      else if i == 2 {  }
      else if i == 3 {  }
      else if i == 4 {  }
    }
  }

  lemma WordsSplitterAny3Replacements()
    ensures LowerWordReplacements(WordsSplitterAny3)
  {
    forall i | 0 <= i < |WordsSplitterAny3|
      ensures AllIn(WordsSplitterAny3[i].replacement, IsLowerWordChar)
    {
      if i == 0 {  }
      else if i == 1 {  }
      else if i == 2 {  }
      else if i == 3 {  }
      else if i == 4 {  }
    }
  }

  lemma WordsSplitterAny4Checked()
    ensures TailChecked(WordsSplitterAny4) && PatternsLongerThan(WordsSplitterAny4, 2)
  {
    forall i | 0 <= i < |WordsSplitterAny4|
      ensures TailHasNonUnderscore(WordsSplitterAny4[i].pattern) && TailHasNonUnderscore(WordsSplitterAny4[i].replacement)
      ensures |WordsSplitterAny4[i].pattern| > 2
    {
      if i == 0 {  }
      else if i == 1 {  }
      else if i == 2 {  }
      else if i == 3 {  }
      else if i == 4 {  }
    }
  }

  lemma WordsSplitterAny4Replacements()
    ensures LowerWordReplacements(WordsSplitterAny4)
  {
    forall i | 0 <= i < |WordsSplitterAny4|
      ensures AllIn(WordsSplitterAny4[i].replacement, IsLowerWordChar)
    {
      if i == 0 {  }
      else if i == 1 {  }
      else if i == 2 {  }
      else if i == 3 {  }
      else if i == 4 {  }
    }
  }

  lemma WordsSplitterAny5Checked()
    ensures TailChecked(WordsSplitterAny5) && PatternsLongerThan(WordsSplitterAny5, 2)
  {
    forall i | 0 <= i < |WordsSplitterAny5|
      ensures TailHasNonUnderscore(WordsSplitterAny5[i].pattern) && TailHasNonUnderscore(WordsSplitterAny5[i].replacement)
      ensures |WordsSplitterAny5[i].pattern| > 2
    {
      if i == 0 {  }
      else if i == 1 {  }
      else if i == 2 {  }
      else if i == 3 {  }
      else if i == 4 {  }
    }
  }

  lemma WordsSplitterAny5Replacements()
    ensures LowerWordReplacements(WordsSplitterAny5)
  {
    forall i | 0 <= i < |WordsSplitterAny5|
      ensures AllIn(WordsSplitterAny5[i].replacement, IsLowerWordChar)
    {
      if i == 0 {  }
      else if i == 1 {  }
      else if i == 2 {  }
      else if i == 3 {  }
      else if i == 4 {  }
    }
  }

  lemma AbbreviationsPrTag1Checked()
    ensures TailChecked(AbbreviationsPrTag1) && PatternsLongerThan(AbbreviationsPrTag1, 2)
  {
    forall i | 0 <= i < |AbbreviationsPrTag1|
      ensures TailHasNonUnderscore(AbbreviationsPrTag1[i].pattern) && TailHasNonUnderscore(AbbreviationsPrTag1[i].replacement)
      ensures |AbbreviationsPrTag1[i].pattern| > 2
    {
      if i == 0 {  }
      else if i == 1 {  }
      else if i == 2 {  }
    }
  }

  lemma AbbreviationsPrTag1Replacements()
    ensures LowerWordReplacements(AbbreviationsPrTag1)
  {
    forall i | 0 <= i < |AbbreviationsPrTag1|
      ensures AllIn(AbbreviationsPrTag1[i].replacement, IsLowerWordChar)
    {
      if i == 0 {  }
      else if i == 1 {  }
      else if i == 2 {  }
    }
  }

  lemma AbbreviationsPrTag2Checked()
    ensures TailChecked(AbbreviationsPrTag2) && PatternsLongerThan(AbbreviationsPrTag2, 2)
  {
    forall i | 0 <= i < |AbbreviationsPrTag2|
      ensures TailHasNonUnderscore(AbbreviationsPrTag2[i].pattern) && TailHasNonUnderscore(AbbreviationsPrTag2[i].replacement)
      ensures |AbbreviationsPrTag2[i].pattern| > 2
    {
      if i == 0 {  }
      else if i == 1 {  }
      else if i == 2 {  }
    }
  }

  lemma AbbreviationsPrTag2Replacements()
    ensures LowerWordReplacements(AbbreviationsPrTag2)
  {
    forall i | 0 <= i < |AbbreviationsPrTag2|
      ensures AllIn(AbbreviationsPrTag2[i].replacement, IsLowerWordChar)
    {
      if i == 0 {  }
      else if i == 1 {  }
      else if i == 2 {  }
    }
  }

  lemma AbbreviationsPrTag3Checked()
    ensures TailChecked(AbbreviationsPrTag3) && PatternsLongerThan(AbbreviationsPrTag3, 2)
  {
    forall i | 0 <= i < |AbbreviationsPrTag3|
      ensures TailHasNonUnderscore(AbbreviationsPrTag3[i].pattern) && TailHasNonUnderscore(AbbreviationsPrTag3[i].replacement)
      ensures |AbbreviationsPrTag3[i].pattern| > 2
    {
      if i == 0 {  }
      else if i == 1 {  }
      else if i == 2 {  }
    }
  }

  lemma AbbreviationsPrTag3Replacements()
    ensures LowerWordReplacements(AbbreviationsPrTag3)
  {
    forall i | 0 <= i < |AbbreviationsPrTag3|
      ensures AllIn(AbbreviationsPrTag3[i].replacement, IsLowerWordChar)
    {
      if i == 0 {  }
      else if i == 1 {  }
      else if i == 2 {  }
    }
  }

  lemma AbbreviationsPrTag4Checked()
    ensures TailChecked(AbbreviationsPrTag4) && PatternsLongerThan(AbbreviationsPrTag4, 2)
  {
    forall i | 0 <= i < |AbbreviationsPrTag4|
      ensures TailHasNonUnderscore(AbbreviationsPrTag4[i].pattern) && TailHasNonUnderscore(AbbreviationsPrTag4[i].replacement)
      ensures |AbbreviationsPrTag4[i].pattern| > 2
    {
      if i == 0 {  }
      else if i == 1 {  }
      else if i == 2 {  }
    }
  }

  lemma AbbreviationsPrTag4Replacements()
    ensures LowerWordReplacements(AbbreviationsPrTag4)
  {
    forall i | 0 <= i < |AbbreviationsPrTag4|
      ensures AllIn(AbbreviationsPrTag4[i].replacement, IsLowerWordChar)
    {
      if i == 0 {  }
      else if i == 1 {  }
      else if i == 2 {  }
    }
  }

  lemma AbbreviationsPrTag5Checked()
    ensures TailChecked(AbbreviationsPrTag5) && PatternsLongerThan(AbbreviationsPrTag5, 2)
  {
    forall i | 0 <= i < |AbbreviationsPrTag5|
      ensures TailHasNonUnderscore(AbbreviationsPrTag5[i].pattern) && TailHasNonUnderscore(AbbreviationsPrTag5[i].replacement)
      ensures |AbbreviationsPrTag5[i].pattern| > 2
    {
      if i == 0 {  }
      else if i == 1 {  }
      else if i == 2 {  }
    }
  }

  lemma AbbreviationsPrTag5Replacements()
    ensures LowerWordReplacements(AbbreviationsPrTag5)
  {
    forall i | 0 <= i < |AbbreviationsPrTag5|
      ensures AllIn(AbbreviationsPrTag5[i].replacement, IsLowerWordChar)
    {
      if i == 0 {  }
      else if i == 1 {  }
      else if i == 2 {  }
    }
  }

  lemma AbbreviationsPrTag6Checked()
    ensures TailChecked(AbbreviationsPrTag6) && PatternsLongerThan(AbbreviationsPrTag6, 2)
  {
    forall i | 0 <= i < |AbbreviationsPrTag6|
      ensures TailHasNonUnderscore(AbbreviationsPrTag6[i].pattern) && TailHasNonUnderscore(AbbreviationsPrTag6[i].replacement)
      ensures |AbbreviationsPrTag6[i].pattern| > 2
    {
      if i == 0 {  }
      else if i == 1 {  }
    }
  }

  lemma AbbreviationsPrTag6Replacements()
    ensures LowerWordReplacements(AbbreviationsPrTag6)
  {
    forall i | 0 <= i < |AbbreviationsPrTag6|
      ensures AllIn(AbbreviationsPrTag6[i].replacement, IsLowerWordChar)
    {
      if i == 0 {  }
      else if i == 1 {  }
    }
  }

  lemma AbbreviationsPrTag7Checked()
    ensures TailChecked(AbbreviationsPrTag7) && PatternsLongerThan(AbbreviationsPrTag7, 2)
  {
    forall i | 0 <= i < |AbbreviationsPrTag7|
      ensures TailHasNonUnderscore(AbbreviationsPrTag7[i].pattern) && TailHasNonUnderscore(AbbreviationsPrTag7[i].replacement)
      ensures |AbbreviationsPrTag7[i].pattern| > 2
    {
      if i == 0 {  }
      else if i == 1 {  }
    }
  }

  lemma AbbreviationsPrTag7Replacements()
    ensures LowerWordReplacements(AbbreviationsPrTag7)
  {
    forall i | 0 <= i < |AbbreviationsPrTag7|
      ensures AllIn(AbbreviationsPrTag7[i].replacement, IsLowerWordChar)
    {
      if i == 0 {  }
      else if i == 1 {  }
    }
  }

  lemma AbbreviationsPidTag1Checked()
    ensures TailChecked(AbbreviationsPidTag1) && PatternsLongerThan(AbbreviationsPidTag1, 2)
  {
    forall i | 0 <= i < |AbbreviationsPidTag1|
      ensures TailHasNonUnderscore(AbbreviationsPidTag1[i].pattern) && TailHasNonUnderscore(AbbreviationsPidTag1[i].replacement)
      ensures |AbbreviationsPidTag1[i].pattern| > 2
    {
      if i == 0 {  }
      else if i == 1 {  }
      else if i == 2 {  }
    }
  }

  lemma AbbreviationsPidTag1Replacements()
    ensures LowerWordReplacements(AbbreviationsPidTag1)
  {
    forall i | 0 <= i < |AbbreviationsPidTag1|
      ensures AllIn(AbbreviationsPidTag1[i].replacement, IsLowerWordChar)
    {
      if i == 0 {  }
      else if i == 1 {  }
      else if i == 2 {  }
    }
  }

  lemma AbbreviationsPidTag2Checked()
    ensures TailChecked(AbbreviationsPidTag2) && PatternsLongerThan(AbbreviationsPidTag2, 2)
  {
    forall i | 0 <= i < |AbbreviationsPidTag2|
      ensures TailHasNonUnderscore(AbbreviationsPidTag2[i].pattern) && TailHasNonUnderscore(AbbreviationsPidTag2[i].replacement)
      ensures |AbbreviationsPidTag2[i].pattern| > 2
    {
      if i == 0 {  }
      else if i == 1 {  }
    }
  }

  lemma AbbreviationsPidTag2Replacements()
    ensures LowerWordReplacements(AbbreviationsPidTag2)
  {
    forall i | 0 <= i < |AbbreviationsPidTag2|
      ensures AllIn(AbbreviationsPidTag2[i].replacement, IsLowerWordChar)
    {
      if i == 0 {  }
      else if i == 1 {  }
    }
  }

  lemma AbbreviationsAny1KeepShape()
    ensures AllKeepShape(AbbreviationsAny1) && PatternsLongerThan(AbbreviationsAny1, 2)
  {
    forall i | 0 <= i < |AbbreviationsAny1|
      ensures KeepsShape(AbbreviationsAny1[i].pattern, AbbreviationsAny1[i].replacement)
    {
      if i == 0 { assert AbbreviationsAny1[0] == Rule("appointment", "appt"); }
      else if i == 1 { assert AbbreviationsAny1[1] == Rule("certificate", "cert"); }
      else if i == 2 { assert AbbreviationsAny1[2] == Rule("recipient_", "rcpt_"); }
    }
    forall i | 0 <= i < |AbbreviationsAny1|
      ensures |AbbreviationsAny1[i].pattern| > 2
    {
      if i == 0 {  }
      else if i == 1 {  }
      else if i == 2 {  }
    }
  }

  lemma AbbreviationsAny1Replacements()
    ensures LowerWordReplacements(AbbreviationsAny1)
  {
    forall i | 0 <= i < |AbbreviationsAny1|
      ensures AllIn(AbbreviationsAny1[i].replacement, IsLowerWordChar)
    {
      if i == 0 {  }
      else if i == 1 {  }
      else if i == 2 {  }
    }
  }

  lemma AbbreviationsAny2KeepShape()
    ensures AllKeepShape(AbbreviationsAny2) && PatternsLongerThan(AbbreviationsAny2, 2)
  {
    forall i | 0 <= i < |AbbreviationsAny2|
      ensures KeepsShape(AbbreviationsAny2[i].pattern, AbbreviationsAny2[i].replacement)
    {
      if i == 0 { assert AbbreviationsAny2[0] == Rule("access_control_list_", "acl_"); }
      else if i == 1 { assert AbbreviationsAny2[1] == Rule("hierarchical", "hier"); }
      else if i == 2 { assert AbbreviationsAny2[2] == Rule("address", "addr"); }
    }
    forall i | 0 <= i < |AbbreviationsAny2|
      ensures |AbbreviationsAny2[i].pattern| > 2
    {
      if i == 0 {  }
      else if i == 1 {  }
      else if i == 2 {  }
    }
  }

  lemma AbbreviationsAny2Replacements()
    ensures LowerWordReplacements(AbbreviationsAny2)
  {
    forall i | 0 <= i < |AbbreviationsAny2|
      ensures AllIn(AbbreviationsAny2[i].replacement, IsLowerWordChar)
    {
      if i == 0 {  }
      else if i == 1 {  }
      else if i == 2 {  }
    }
  }

  lemma AbbreviationsAny3KeepShape()
    ensures AllKeepShape(AbbreviationsAny3) && PatternsLongerThan(AbbreviationsAny3, 2)
  {
    forall i | 0 <= i < |AbbreviationsAny3|
      ensures KeepsShape(AbbreviationsAny3[i].pattern, AbbreviationsAny3[i].replacement)
    {
      if i == 0 { assert AbbreviationsAny3[0] == Rule("message", "msg"); }
      else if i == 1 { assert AbbreviationsAny3[1] == Rule("hasattach", "has_attachments"); }
      else if i == 2 { assert AbbreviationsAny3[2] == Rule("_extended", "_ex"); }
    }
    forall i | 0 <= i < |AbbreviationsAny3|
      ensures |AbbreviationsAny3[i].pattern| > 2
    {
      if i == 0 {  }
      else if i == 1 {  }
      else if i == 2 {  }
    }
  }

  lemma AbbreviationsAny3Replacements()
    ensures LowerWordReplacements(AbbreviationsAny3)
  {
    forall i | 0 <= i < |AbbreviationsAny3|
      ensures AllIn(AbbreviationsAny3[i].replacement, IsLowerWordChar)
    {
      if i == 0 {  }
      else if i == 1 {  }
      else if i == 2 {  }
    }
  }

  lemma AbbreviationsAny4KeepShape()
    ensures AllKeepShape(AbbreviationsAny4) && PatternsLongerThan(AbbreviationsAny4, 2)
  {
    forall i | 0 <= i < |AbbreviationsAny4|
      ensures KeepsShape(AbbreviationsAny4[i].pattern, AbbreviationsAny4[i].replacement)
    {
      if i == 0 { assert AbbreviationsAny4[0] == Rule("_eid", "_entry_id"); }
      else if i == 1 { assert AbbreviationsAny4[1] == Rule("_telephone_", "_phone_"); }
      else if i == 2 { assert AbbreviationsAny4[2] == Rule("received_", "rcvd_"); }
    }
    forall i | 0 <= i < |AbbreviationsAny4|
      ensures |AbbreviationsAny4[i].pattern| > 2
    {
      if i == 0 {  }
      else if i == 1 {  }
      else if i == 2 {  }
    }
  }

  lemma AbbreviationsAny4Replacements()
    ensures LowerWordReplacements(AbbreviationsAny4)
  {
    forall i | 0 <= i < |AbbreviationsAny4|
      ensures AllIn(AbbreviationsAny4[i].replacement, IsLowerWordChar)
    {
      if i == 0 {  }
      else if i == 1 {  }
      else if i == 2 {  }
    }
  }

  lemma AbbreviationsAny5KeepShape()
    ensures AllKeepShape(AbbreviationsAny5) && PatternsLongerThan(AbbreviationsAny5, 2)
  {
    forall i | 0 <= i < |AbbreviationsAny5|
      ensures KeepsShape(AbbreviationsAny5[i].pattern, AbbreviationsAny5[i].replacement)
    {
      if i == 0 { assert AbbreviationsAny5[0] == Rule("number", "num"); }
      else if i == 1 { assert AbbreviationsAny5[1] == Rule("_object_", "_obj_"); }
      else if i == 2 { assert AbbreviationsAny5[2] == Rule("_message_", "_msg_"); }
    }
    forall i | 0 <= i < |AbbreviationsAny5|
      ensures |AbbreviationsAny5[i].pattern| > 2
    {
      if i == 0 {  }
      else if i == 1 {  }
      else if i == 2 {  }
    }
  }

  lemma AbbreviationsAny5Replacements()
    ensures LowerWordReplacements(AbbreviationsAny5)
  {
    forall i | 0 <= i < |AbbreviationsAny5|
      ensures AllIn(AbbreviationsAny5[i].replacement, IsLowerWordChar)
    {
      if i == 0 {  }
      else if i == 1 {  }
      else if i == 2 {  }
    }
  }

  lemma AbbreviationsAny6KeepShape()
    ensures AllKeepShape(AbbreviationsAny6) && PatternsLongerThan(AbbreviationsAny6, 2)
  {
    forall i | 0 <= i < |AbbreviationsAny6|
      ensures KeepsShape(AbbreviationsAny6[i].pattern, AbbreviationsAny6[i].replacement)
    {
      if i == 0 { assert AbbreviationsAny6[0] == Rule("internet", "inet"); }
      else if i == 1 { assert AbbreviationsAny6[1] == Rule("acct", "account"); }
      else if i == 2 { assert AbbreviationsAny6[2] == Rule("maximum", "max"); }
    }
    forall i | 0 <= i < |AbbreviationsAny6|
      ensures |AbbreviationsAny6[i].pattern| > 2
    {
      if i == 0 {  }
      else if i == 1 {  }
      else if i == 2 {  }
    }
  }

  lemma AbbreviationsAny6Replacements()
    ensures LowerWordReplacements(AbbreviationsAny6)
  {
    forall i | 0 <= i < |AbbreviationsAny6|
      ensures AllIn(AbbreviationsAny6[i].replacement, IsLowerWordChar)
    {
      if i == 0 {  }
      else if i == 1 {  }
      else if i == 2 {  }
    }
  }

  lemma AbbreviationsAny7KeepShape()
    ensures AllKeepShape(AbbreviationsAny7) && PatternsLongerThan(AbbreviationsAny7, 2)
  {
    forall i | 0 <= i < |AbbreviationsAny7|
      ensures KeepsShape(AbbreviationsAny7[i].pattern, AbbreviationsAny7[i].replacement)
    {
      if i == 0 { assert AbbreviationsAny7[0] == Rule("minimum", "min"); }
      else if i == 1 { assert AbbreviationsAny7[1] == Rule("transmitable", "transmittable"); }
      else if i == 2 { assert AbbreviationsAny7[2] == Rule("_binary", "_bin"); }
    }
    forall i | 0 <= i < |AbbreviationsAny7|
      ensures |AbbreviationsAny7[i].pattern| > 2
    {
      if i == 0 {  }
      else if i == 1 {  }
      else if i == 2 {  }
    }
  }

  lemma AbbreviationsAny7Replacements()
    ensures LowerWordReplacements(AbbreviationsAny7)
  {
    forall i | 0 <= i < |AbbreviationsAny7|
      ensures AllIn(AbbreviationsAny7[i].replacement, IsLowerWordChar)
    {
      if i == 0 {  }
      else if i == 1 {  }
      else if i == 2 {  }
    }
  }

  lemma AbbreviationsAny8KeepShape()
    ensures AllKeepShape(AbbreviationsAny8) && PatternsLongerThan(AbbreviationsAny8, 2)
  {
    forall i | 0 <= i < |AbbreviationsAny8|
      ensures KeepsShape(AbbreviationsAny8[i].pattern, AbbreviationsAny8[i].replacement)
    {
      if i == 0 { assert AbbreviationsAny8[0] == Rule("_mid_", "_msg_id_"); }
      else if i == 1 { assert AbbreviationsAny8[1] == Rule("_cpid", "_code_page_id"); }
      else if i == 2 { assert AbbreviationsAny8[2] == Rule("dam_", "deferred_action_message_"); }
    }
    forall i | 0 <= i < |AbbreviationsAny8|
      ensures |AbbreviationsAny8[i].pattern| > 2
    {
      if i == 0 {  }
      else if i == 1 {  }
      else if i == 2 {  }
    }
  }

  lemma AbbreviationsAny8Replacements()
    ensures LowerWordReplacements(AbbreviationsAny8)
  {
    forall i | 0 <= i < |AbbreviationsAny8|
      ensures AllIn(AbbreviationsAny8[i].replacement, IsLowerWordChar)
    {
      if i == 0 {  }
      else if i == 1 {  }
      else if i == 2 {  }
    }
  }

  lemma AbbreviationsAny9KeepShape()
    ensures AllKeepShape(AbbreviationsAny9) && PatternsLongerThan(AbbreviationsAny9, 2)
  {
    forall i | 0 <= i < |AbbreviationsAny9|
      ensures KeepsShape(AbbreviationsAny9[i].pattern, AbbreviationsAny9[i].replacement)
    {
      if i == 0 { assert AbbreviationsAny9[0] == Rule("attribute", "attr"); }
      else if i == 1 { assert AbbreviationsAny9[1] == Rule("schedule_", "schd_"); }
    }
    forall i | 0 <= i < |AbbreviationsAny9|
      ensures |AbbreviationsAny9[i].pattern| > 2
    {
      if i == 0 {  }
      else if i == 1 {  }
    }
  }

  lemma AbbreviationsAny9Replacements()
    ensures LowerWordReplacements(AbbreviationsAny9)
  {
    forall i | 0 <= i < |AbbreviationsAny9|
      ensures AllIn(AbbreviationsAny9[i].replacement, IsLowerWordChar)
    {
      if i == 0 {  }
      else if i == 1 {  }
    }
  }

  lemma WordsSplitterPrTagFacts()
    ensures AllLettered(WordsSplitterPrTag) && PatternsLongerThan(WordsSplitterPrTag, 2) && LowerWordReplacements(WordsSplitterPrTag)
  {
    WordsSplitterPrTag1Checked();
    TailCheckedIsLettered(WordsSplitterPrTag1);
    WordsSplitterPrTag1Replacements();
    WordsSplitterPrTag2Checked();
    TailCheckedIsLettered(WordsSplitterPrTag2);
    WordsSplitterPrTag2Replacements();
    WordsSplitterPrTag3Checked();
    TailCheckedIsLettered(WordsSplitterPrTag3);
    WordsSplitterPrTag3Replacements();
    WordsSplitterPrTag4Checked();
    TailCheckedIsLettered(WordsSplitterPrTag4);
    WordsSplitterPrTag4Replacements();
    WordsSplitterPrTag5Checked();
    TailCheckedIsLettered(WordsSplitterPrTag5);
    WordsSplitterPrTag5Replacements();
    WordsSplitterPrTag6Checked();
    TailCheckedIsLettered(WordsSplitterPrTag6);
    WordsSplitterPrTag6Replacements();
    WordsSplitterPrTag7Checked();
    TailCheckedIsLettered(WordsSplitterPrTag7);
    WordsSplitterPrTag7Replacements();
    WordsSplitterPrTag8Checked();
    TailCheckedIsLettered(WordsSplitterPrTag8);
    WordsSplitterPrTag8Replacements();
    WordsSplitterPrTag9Checked();
    TailCheckedIsLettered(WordsSplitterPrTag9);
    WordsSplitterPrTag9Replacements();
    WordsSplitterPrTag10Checked();
    TailCheckedIsLettered(WordsSplitterPrTag10);
    WordsSplitterPrTag10Replacements();
    WordsSplitterPrTag11Checked();
    TailCheckedIsLettered(WordsSplitterPrTag11);
    WordsSplitterPrTag11Replacements();
    WordsSplitterPrTag12Checked();
    TailCheckedIsLettered(WordsSplitterPrTag12);
    WordsSplitterPrTag12Replacements();
    WordsSplitterPrTag13Checked();
    TailCheckedIsLettered(WordsSplitterPrTag13);
    WordsSplitterPrTag13Replacements();
    WordsSplitterPrTag14Checked();
    TailCheckedIsLettered(WordsSplitterPrTag14);
    WordsSplitterPrTag14Replacements();
    WordsSplitterPrTag15Checked();
    TailCheckedIsLettered(WordsSplitterPrTag15);
    WordsSplitterPrTag15Replacements();
    WordsSplitterPrTag16Checked();
    TailCheckedIsLettered(WordsSplitterPrTag16);
    WordsSplitterPrTag16Replacements();
    WordsSplitterPrTag17Checked();
    TailCheckedIsLettered(WordsSplitterPrTag17);
    WordsSplitterPrTag17Replacements();
    WordsSplitterPrTag18Checked();
    TailCheckedIsLettered(WordsSplitterPrTag18);
    WordsSplitterPrTag18Replacements();
    AllLetteredConcat(WordsSplitterPrTag1, WordsSplitterPrTag2);
    AllLetteredConcat(WordsSplitterPrTag1 + WordsSplitterPrTag2, WordsSplitterPrTag3);
    AllLetteredConcat(WordsSplitterPrTag1 + WordsSplitterPrTag2 + WordsSplitterPrTag3, WordsSplitterPrTag4);
    AllLetteredConcat(WordsSplitterPrTag1 + WordsSplitterPrTag2 + WordsSplitterPrTag3 + WordsSplitterPrTag4, WordsSplitterPrTag5);
    AllLetteredConcat(WordsSplitterPrTag1 + WordsSplitterPrTag2 + WordsSplitterPrTag3 + WordsSplitterPrTag4 + WordsSplitterPrTag5, WordsSplitterPrTag6);
    AllLetteredConcat(WordsSplitterPrTag1 + WordsSplitterPrTag2 + WordsSplitterPrTag3 + WordsSplitterPrTag4 + WordsSplitterPrTag5 + WordsSplitterPrTag6, WordsSplitterPrTag7);
    AllLetteredConcat(WordsSplitterPrTag1 + WordsSplitterPrTag2 + WordsSplitterPrTag3 + WordsSplitterPrTag4 + WordsSplitterPrTag5 + WordsSplitterPrTag6 + WordsSplitterPrTag7, WordsSplitterPrTag8);
    AllLetteredConcat(WordsSplitterPrTag1 + WordsSplitterPrTag2 + WordsSplitterPrTag3 + WordsSplitterPrTag4 + WordsSplitterPrTag5 + WordsSplitterPrTag6 + WordsSplitterPrTag7 + WordsSplitterPrTag8, WordsSplitterPrTag9);
    AllLetteredConcat(WordsSplitterPrTag1 + WordsSplitterPrTag2 + WordsSplitterPrTag3 + WordsSplitterPrTag4 + WordsSplitterPrTag5 + WordsSplitterPrTag6 + WordsSplitterPrTag7 + WordsSplitterPrTag8 + WordsSplitterPrTag9, WordsSplitterPrTag10);
    AllLetteredConcat(WordsSplitterPrTag1 + WordsSplitterPrTag2 + WordsSplitterPrTag3 + WordsSplitterPrTag4 + WordsSplitterPrTag5 + WordsSplitterPrTag6 + WordsSplitterPrTag7 + WordsSplitterPrTag8 + WordsSplitterPrTag9 + WordsSplitterPrTag10, WordsSplitterPrTag11);
    AllLetteredConcat(WordsSplitterPrTag1 + WordsSplitterPrTag2 + WordsSplitterPrTag3 + WordsSplitterPrTag4 + WordsSplitterPrTag5 + WordsSplitterPrTag6 + WordsSplitterPrTag7 + WordsSplitterPrTag8 + WordsSplitterPrTag9 + WordsSplitterPrTag10 + WordsSplitterPrTag11, WordsSplitterPrTag12);
    AllLetteredConcat(WordsSplitterPrTag1 + WordsSplitterPrTag2 + WordsSplitterPrTag3 + WordsSplitterPrTag4 + WordsSplitterPrTag5 + WordsSplitterPrTag6 + WordsSplitterPrTag7 + WordsSplitterPrTag8 + WordsSplitterPrTag9 + WordsSplitterPrTag10 + WordsSplitterPrTag11 + WordsSplitterPrTag12, WordsSplitterPrTag13);
    AllLetteredConcat(WordsSplitterPrTag1 + WordsSplitterPrTag2 + WordsSplitterPrTag3 + WordsSplitterPrTag4 + WordsSplitterPrTag5 + WordsSplitterPrTag6 + WordsSplitterPrTag7 + WordsSplitterPrTag8 + WordsSplitterPrTag9 + WordsSplitterPrTag10 + WordsSplitterPrTag11 + WordsSplitterPrTag12 + WordsSplitterPrTag13, WordsSplitterPrTag14);
    AllLetteredConcat(WordsSplitterPrTag1 + WordsSplitterPrTag2 + WordsSplitterPrTag3 + WordsSplitterPrTag4 + WordsSplitterPrTag5 + WordsSplitterPrTag6 + WordsSplitterPrTag7 + WordsSplitterPrTag8 + WordsSplitterPrTag9 + WordsSplitterPrTag10 + WordsSplitterPrTag11 + WordsSplitterPrTag12 + WordsSplitterPrTag13 + WordsSplitterPrTag14, WordsSplitterPrTag15);
    AllLetteredConcat(WordsSplitterPrTag1 + WordsSplitterPrTag2 + WordsSplitterPrTag3 + WordsSplitterPrTag4 + WordsSplitterPrTag5 + WordsSplitterPrTag6 + WordsSplitterPrTag7 + WordsSplitterPrTag8 + WordsSplitterPrTag9 + WordsSplitterPrTag10 + WordsSplitterPrTag11 + WordsSplitterPrTag12 + WordsSplitterPrTag13 + WordsSplitterPrTag14 + WordsSplitterPrTag15, WordsSplitterPrTag16);
    AllLetteredConcat(WordsSplitterPrTag1 + WordsSplitterPrTag2 + WordsSplitterPrTag3 + WordsSplitterPrTag4 + WordsSplitterPrTag5 + WordsSplitterPrTag6 + WordsSplitterPrTag7 + WordsSplitterPrTag8 + WordsSplitterPrTag9 + WordsSplitterPrTag10 + WordsSplitterPrTag11 + WordsSplitterPrTag12 + WordsSplitterPrTag13 + WordsSplitterPrTag14 + WordsSplitterPrTag15 + WordsSplitterPrTag16, WordsSplitterPrTag17);
    AllLetteredConcat(WordsSplitterPrTag1 + WordsSplitterPrTag2 + WordsSplitterPrTag3 + WordsSplitterPrTag4 + WordsSplitterPrTag5 + WordsSplitterPrTag6 + WordsSplitterPrTag7 + WordsSplitterPrTag8 + WordsSplitterPrTag9 + WordsSplitterPrTag10 + WordsSplitterPrTag11 + WordsSplitterPrTag12 + WordsSplitterPrTag13 + WordsSplitterPrTag14 + WordsSplitterPrTag15 + WordsSplitterPrTag16 + WordsSplitterPrTag17, WordsSplitterPrTag18);
    PatternsLongerThanConcat(WordsSplitterPrTag1, WordsSplitterPrTag2, 2);
    PatternsLongerThanConcat(WordsSplitterPrTag1 + WordsSplitterPrTag2, WordsSplitterPrTag3, 2);
    PatternsLongerThanConcat(WordsSplitterPrTag1 + WordsSplitterPrTag2 + WordsSplitterPrTag3, WordsSplitterPrTag4, 2);
    PatternsLongerThanConcat(WordsSplitterPrTag1 + WordsSplitterPrTag2 + WordsSplitterPrTag3 + WordsSplitterPrTag4, WordsSplitterPrTag5, 2);
    PatternsLongerThanConcat(WordsSplitterPrTag1 + WordsSplitterPrTag2 + WordsSplitterPrTag3 + WordsSplitterPrTag4 + WordsSplitterPrTag5, WordsSplitterPrTag6, 2);
    PatternsLongerThanConcat(WordsSplitterPrTag1 + WordsSplitterPrTag2 + WordsSplitterPrTag3 + WordsSplitterPrTag4 + WordsSplitterPrTag5 + WordsSplitterPrTag6, WordsSplitterPrTag7, 2);
    PatternsLongerThanConcat(WordsSplitterPrTag1 + WordsSplitterPrTag2 + WordsSplitterPrTag3 + WordsSplitterPrTag4 + WordsSplitterPrTag5 + WordsSplitterPrTag6 + WordsSplitterPrTag7, WordsSplitterPrTag8, 2);
    PatternsLongerThanConcat(WordsSplitterPrTag1 + WordsSplitterPrTag2 + WordsSplitterPrTag3 + WordsSplitterPrTag4 + WordsSplitterPrTag5 + WordsSplitterPrTag6 + WordsSplitterPrTag7 + WordsSplitterPrTag8, WordsSplitterPrTag9, 2);
    PatternsLongerThanConcat(WordsSplitterPrTag1 + WordsSplitterPrTag2 + WordsSplitterPrTag3 + WordsSplitterPrTag4 + WordsSplitterPrTag5 + WordsSplitterPrTag6 + WordsSplitterPrTag7 + WordsSplitterPrTag8 + WordsSplitterPrTag9, WordsSplitterPrTag10, 2);
    PatternsLongerThanConcat(WordsSplitterPrTag1 + WordsSplitterPrTag2 + WordsSplitterPrTag3 + WordsSplitterPrTag4 + WordsSplitterPrTag5 + WordsSplitterPrTag6 + WordsSplitterPrTag7 + WordsSplitterPrTag8 + WordsSplitterPrTag9 + WordsSplitterPrTag10, WordsSplitterPrTag11, 2);
    PatternsLongerThanConcat(WordsSplitterPrTag1 + WordsSplitterPrTag2 + WordsSplitterPrTag3 + WordsSplitterPrTag4 + WordsSplitterPrTag5 + WordsSplitterPrTag6 + WordsSplitterPrTag7 + WordsSplitterPrTag8 + WordsSplitterPrTag9 + WordsSplitterPrTag10 + WordsSplitterPrTag11, WordsSplitterPrTag12, 2);
    PatternsLongerThanConcat(WordsSplitterPrTag1 + WordsSplitterPrTag2 + WordsSplitterPrTag3 + WordsSplitterPrTag4 + WordsSplitterPrTag5 + WordsSplitterPrTag6 + WordsSplitterPrTag7 + WordsSplitterPrTag8 + WordsSplitterPrTag9 + WordsSplitterPrTag10 + WordsSplitterPrTag11 + WordsSplitterPrTag12, WordsSplitterPrTag13, 2);
    PatternsLongerThanConcat(WordsSplitterPrTag1 + WordsSplitterPrTag2 + WordsSplitterPrTag3 + WordsSplitterPrTag4 + WordsSplitterPrTag5 + WordsSplitterPrTag6 + WordsSplitterPrTag7 + WordsSplitterPrTag8 + WordsSplitterPrTag9 + WordsSplitterPrTag10 + WordsSplitterPrTag11 + WordsSplitterPrTag12 + WordsSplitterPrTag13, WordsSplitterPrTag14, 2);
    PatternsLongerThanConcat(WordsSplitterPrTag1 + WordsSplitterPrTag2 + WordsSplitterPrTag3 + WordsSplitterPrTag4 + WordsSplitterPrTag5 + WordsSplitterPrTag6 + WordsSplitterPrTag7 + WordsSplitterPrTag8 + WordsSplitterPrTag9 + WordsSplitterPrTag10 + WordsSplitterPrTag11 + WordsSplitterPrTag12 + WordsSplitterPrTag13 + WordsSplitterPrTag14, WordsSplitterPrTag15, 2);
    PatternsLongerThanConcat(WordsSplitterPrTag1 + WordsSplitterPrTag2 + WordsSplitterPrTag3 + WordsSplitterPrTag4 + WordsSplitterPrTag5 + WordsSplitterPrTag6 + WordsSplitterPrTag7 + WordsSplitterPrTag8 + WordsSplitterPrTag9 + WordsSplitterPrTag10 + WordsSplitterPrTag11 + WordsSplitterPrTag12 + WordsSplitterPrTag13 + WordsSplitterPrTag14 + WordsSplitterPrTag15, WordsSplitterPrTag16, 2);
    PatternsLongerThanConcat(WordsSplitterPrTag1 + WordsSplitterPrTag2 + WordsSplitterPrTag3 + WordsSplitterPrTag4 + WordsSplitterPrTag5 + WordsSplitterPrTag6 + WordsSplitterPrTag7 + WordsSplitterPrTag8 + WordsSplitterPrTag9 + WordsSplitterPrTag10 + WordsSplitterPrTag11 + WordsSplitterPrTag12 + WordsSplitterPrTag13 + WordsSplitterPrTag14 + WordsSplitterPrTag15 + WordsSplitterPrTag16, WordsSplitterPrTag17, 2);
    PatternsLongerThanConcat(WordsSplitterPrTag1 + WordsSplitterPrTag2 + WordsSplitterPrTag3 + WordsSplitterPrTag4 + WordsSplitterPrTag5 + WordsSplitterPrTag6 + WordsSplitterPrTag7 + WordsSplitterPrTag8 + WordsSplitterPrTag9 + WordsSplitterPrTag10 + WordsSplitterPrTag11 + WordsSplitterPrTag12 + WordsSplitterPrTag13 + WordsSplitterPrTag14 + WordsSplitterPrTag15 + WordsSplitterPrTag16 + WordsSplitterPrTag17, WordsSplitterPrTag18, 2);
    LowerWordReplacementsConcat(WordsSplitterPrTag1, WordsSplitterPrTag2);
    LowerWordReplacementsConcat(WordsSplitterPrTag1 + WordsSplitterPrTag2, WordsSplitterPrTag3);
    LowerWordReplacementsConcat(WordsSplitterPrTag1 + WordsSplitterPrTag2 + WordsSplitterPrTag3, WordsSplitterPrTag4);
    LowerWordReplacementsConcat(WordsSplitterPrTag1 + WordsSplitterPrTag2 + WordsSplitterPrTag3 + WordsSplitterPrTag4, WordsSplitterPrTag5);
    LowerWordReplacementsConcat(WordsSplitterPrTag1 + WordsSplitterPrTag2 + WordsSplitterPrTag3 + WordsSplitterPrTag4 + WordsSplitterPrTag5, WordsSplitterPrTag6);
    LowerWordReplacementsConcat(WordsSplitterPrTag1 + WordsSplitterPrTag2 + WordsSplitterPrTag3 + WordsSplitterPrTag4 + WordsSplitterPrTag5 + WordsSplitterPrTag6, WordsSplitterPrTag7);
    LowerWordReplacementsConcat(WordsSplitterPrTag1 + WordsSplitterPrTag2 + WordsSplitterPrTag3 + WordsSplitterPrTag4 + WordsSplitterPrTag5 + WordsSplitterPrTag6 + WordsSplitterPrTag7, WordsSplitterPrTag8);
    LowerWordReplacementsConcat(WordsSplitterPrTag1 + WordsSplitterPrTag2 + WordsSplitterPrTag3 + WordsSplitterPrTag4 + WordsSplitterPrTag5 + WordsSplitterPrTag6 + WordsSplitterPrTag7 + WordsSplitterPrTag8, WordsSplitterPrTag9);
    LowerWordReplacementsConcat(WordsSplitterPrTag1 + WordsSplitterPrTag2 + WordsSplitterPrTag3 + WordsSplitterPrTag4 + WordsSplitterPrTag5 + WordsSplitterPrTag6 + WordsSplitterPrTag7 + WordsSplitterPrTag8 + WordsSplitterPrTag9, WordsSplitterPrTag10);
    LowerWordReplacementsConcat(WordsSplitterPrTag1 + WordsSplitterPrTag2 + WordsSplitterPrTag3 + WordsSplitterPrTag4 + WordsSplitterPrTag5 + WordsSplitterPrTag6 + WordsSplitterPrTag7 + WordsSplitterPrTag8 + WordsSplitterPrTag9 + WordsSplitterPrTag10, WordsSplitterPrTag11);
    LowerWordReplacementsConcat(WordsSplitterPrTag1 + WordsSplitterPrTag2 + WordsSplitterPrTag3 + WordsSplitterPrTag4 + WordsSplitterPrTag5 + WordsSplitterPrTag6 + WordsSplitterPrTag7 + WordsSplitterPrTag8 + WordsSplitterPrTag9 + WordsSplitterPrTag10 + WordsSplitterPrTag11, WordsSplitterPrTag12);
    LowerWordReplacementsConcat(WordsSplitterPrTag1 + WordsSplitterPrTag2 + WordsSplitterPrTag3 + WordsSplitterPrTag4 + WordsSplitterPrTag5 + WordsSplitterPrTag6 + WordsSplitterPrTag7 + WordsSplitterPrTag8 + WordsSplitterPrTag9 + WordsSplitterPrTag10 + WordsSplitterPrTag11 + WordsSplitterPrTag12, WordsSplitterPrTag13);
    LowerWordReplacementsConcat(WordsSplitterPrTag1 + WordsSplitterPrTag2 + WordsSplitterPrTag3 + WordsSplitterPrTag4 + WordsSplitterPrTag5 + WordsSplitterPrTag6 + WordsSplitterPrTag7 + WordsSplitterPrTag8 + WordsSplitterPrTag9 + WordsSplitterPrTag10 + WordsSplitterPrTag11 + WordsSplitterPrTag12 + WordsSplitterPrTag13, WordsSplitterPrTag14);
    LowerWordReplacementsConcat(WordsSplitterPrTag1 + WordsSplitterPrTag2 + WordsSplitterPrTag3 + WordsSplitterPrTag4 + WordsSplitterPrTag5 + WordsSplitterPrTag6 + WordsSplitterPrTag7 + WordsSplitterPrTag8 + WordsSplitterPrTag9 + WordsSplitterPrTag10 + WordsSplitterPrTag11 + WordsSplitterPrTag12 + WordsSplitterPrTag13 + WordsSplitterPrTag14, WordsSplitterPrTag15);
    LowerWordReplacementsConcat(WordsSplitterPrTag1 + WordsSplitterPrTag2 + WordsSplitterPrTag3 + WordsSplitterPrTag4 + WordsSplitterPrTag5 + WordsSplitterPrTag6 + WordsSplitterPrTag7 + WordsSplitterPrTag8 + WordsSplitterPrTag9 + WordsSplitterPrTag10 + WordsSplitterPrTag11 + WordsSplitterPrTag12 + WordsSplitterPrTag13 + WordsSplitterPrTag14 + WordsSplitterPrTag15, WordsSplitterPrTag16);
    LowerWordReplacementsConcat(WordsSplitterPrTag1 + WordsSplitterPrTag2 + WordsSplitterPrTag3 + WordsSplitterPrTag4 + WordsSplitterPrTag5 + WordsSplitterPrTag6 + WordsSplitterPrTag7 + WordsSplitterPrTag8 + WordsSplitterPrTag9 + WordsSplitterPrTag10 + WordsSplitterPrTag11 + WordsSplitterPrTag12 + WordsSplitterPrTag13 + WordsSplitterPrTag14 + WordsSplitterPrTag15 + WordsSplitterPrTag16, WordsSplitterPrTag17);
    LowerWordReplacementsConcat(WordsSplitterPrTag1 + WordsSplitterPrTag2 + WordsSplitterPrTag3 + WordsSplitterPrTag4 + WordsSplitterPrTag5 + WordsSplitterPrTag6 + WordsSplitterPrTag7 + WordsSplitterPrTag8 + WordsSplitterPrTag9 + WordsSplitterPrTag10 + WordsSplitterPrTag11 + WordsSplitterPrTag12 + WordsSplitterPrTag13 + WordsSplitterPrTag14 + WordsSplitterPrTag15 + WordsSplitterPrTag16 + WordsSplitterPrTag17, WordsSplitterPrTag18);
  }

  lemma WordsSplitterPidTagFacts()
    ensures AllLettered(WordsSplitterPidTag) && PatternsLongerThan(WordsSplitterPidTag, 2) && LowerWordReplacements(WordsSplitterPidTag)
  {
    WordsSplitterPidTagChecked();
    TailCheckedIsLettered(WordsSplitterPidTag);
    WordsSplitterPidTagReplacements();
  }

  lemma WordsSplitterPTagFacts()
    ensures AllLettered(WordsSplitterPTag) && PatternsLongerThan(WordsSplitterPTag, 2) && LowerWordReplacements(WordsSplitterPTag)
  {
    WordsSplitterPTagChecked();
    TailCheckedIsLettered(WordsSplitterPTag);
    WordsSplitterPTagReplacements();
  }

  lemma WordsSplitterAnyFacts()
    ensures AllLettered(WordsSplitterAny) && PatternsLongerThan(WordsSplitterAny, 2) && LowerWordReplacements(WordsSplitterAny)
  {
    WordsSplitterAny1Checked();
    TailCheckedIsLettered(WordsSplitterAny1);
    WordsSplitterAny1Replacements();
    WordsSplitterAny2Checked();
    TailCheckedIsLettered(WordsSplitterAny2);
    WordsSplitterAny2Replacements();
    WordsSplitterAny3Checked();
    TailCheckedIsLettered(WordsSplitterAny3);
    WordsSplitterAny3Replacements();
    WordsSplitterAny4Checked();
    TailCheckedIsLettered(WordsSplitterAny4);
    WordsSplitterAny4Replacements();
    WordsSplitterAny5Checked();
    TailCheckedIsLettered(WordsSplitterAny5);
    WordsSplitterAny5Replacements();
    AllLetteredConcat(WordsSplitterAny1, WordsSplitterAny2);
    AllLetteredConcat(WordsSplitterAny1 + WordsSplitterAny2, WordsSplitterAny3);
    AllLetteredConcat(WordsSplitterAny1 + WordsSplitterAny2 + WordsSplitterAny3, WordsSplitterAny4);
    AllLetteredConcat(WordsSplitterAny1 + WordsSplitterAny2 + WordsSplitterAny3 + WordsSplitterAny4, WordsSplitterAny5);
    PatternsLongerThanConcat(WordsSplitterAny1, WordsSplitterAny2, 2);
    PatternsLongerThanConcat(WordsSplitterAny1 + WordsSplitterAny2, WordsSplitterAny3, 2);
    PatternsLongerThanConcat(WordsSplitterAny1 + WordsSplitterAny2 + WordsSplitterAny3, WordsSplitterAny4, 2);
    PatternsLongerThanConcat(WordsSplitterAny1 + WordsSplitterAny2 + WordsSplitterAny3 + WordsSplitterAny4, WordsSplitterAny5, 2);
    LowerWordReplacementsConcat(WordsSplitterAny1, WordsSplitterAny2);
    LowerWordReplacementsConcat(WordsSplitterAny1 + WordsSplitterAny2, WordsSplitterAny3);
    LowerWordReplacementsConcat(WordsSplitterAny1 + WordsSplitterAny2 + WordsSplitterAny3, WordsSplitterAny4);
    LowerWordReplacementsConcat(WordsSplitterAny1 + WordsSplitterAny2 + WordsSplitterAny3 + WordsSplitterAny4, WordsSplitterAny5);
  }

  lemma AbbreviationsPrTagFacts()
    ensures AllLettered(AbbreviationsPrTag) && PatternsLongerThan(AbbreviationsPrTag, 2) && LowerWordReplacements(AbbreviationsPrTag)
  {
    AbbreviationsPrTag1Checked();
    TailCheckedIsLettered(AbbreviationsPrTag1);
    AbbreviationsPrTag1Replacements();
    AbbreviationsPrTag2Checked();
    TailCheckedIsLettered(AbbreviationsPrTag2);
    AbbreviationsPrTag2Replacements();
    AbbreviationsPrTag3Checked();
    TailCheckedIsLettered(AbbreviationsPrTag3);
    AbbreviationsPrTag3Replacements();
    AbbreviationsPrTag4Checked();
    TailCheckedIsLettered(AbbreviationsPrTag4);
    AbbreviationsPrTag4Replacements();
    AbbreviationsPrTag5Checked();
    TailCheckedIsLettered(AbbreviationsPrTag5);
    AbbreviationsPrTag5Replacements();
    AbbreviationsPrTag6Checked();
    TailCheckedIsLettered(AbbreviationsPrTag6);
    AbbreviationsPrTag6Replacements();
    AbbreviationsPrTag7Checked();
    TailCheckedIsLettered(AbbreviationsPrTag7);
    AbbreviationsPrTag7Replacements();
    AllLetteredConcat(AbbreviationsPrTag1, AbbreviationsPrTag2);
    AllLetteredConcat(AbbreviationsPrTag1 + AbbreviationsPrTag2, AbbreviationsPrTag3);
    AllLetteredConcat(AbbreviationsPrTag1 + AbbreviationsPrTag2 + AbbreviationsPrTag3, AbbreviationsPrTag4);
    AllLetteredConcat(AbbreviationsPrTag1 + AbbreviationsPrTag2 + AbbreviationsPrTag3 + AbbreviationsPrTag4, AbbreviationsPrTag5);
    AllLetteredConcat(AbbreviationsPrTag1 + AbbreviationsPrTag2 + AbbreviationsPrTag3 + AbbreviationsPrTag4 + AbbreviationsPrTag5, AbbreviationsPrTag6);
    AllLetteredConcat(AbbreviationsPrTag1 + AbbreviationsPrTag2 + AbbreviationsPrTag3 + AbbreviationsPrTag4 + AbbreviationsPrTag5 + AbbreviationsPrTag6, AbbreviationsPrTag7);
    PatternsLongerThanConcat(AbbreviationsPrTag1, AbbreviationsPrTag2, 2);
    PatternsLongerThanConcat(AbbreviationsPrTag1 + AbbreviationsPrTag2, AbbreviationsPrTag3, 2);
    PatternsLongerThanConcat(AbbreviationsPrTag1 + AbbreviationsPrTag2 + AbbreviationsPrTag3, AbbreviationsPrTag4, 2);
    PatternsLongerThanConcat(AbbreviationsPrTag1 + AbbreviationsPrTag2 + AbbreviationsPrTag3 + AbbreviationsPrTag4, AbbreviationsPrTag5, 2);
    PatternsLongerThanConcat(AbbreviationsPrTag1 + AbbreviationsPrTag2 + AbbreviationsPrTag3 + AbbreviationsPrTag4 + AbbreviationsPrTag5, AbbreviationsPrTag6, 2);
    PatternsLongerThanConcat(AbbreviationsPrTag1 + AbbreviationsPrTag2 + AbbreviationsPrTag3 + AbbreviationsPrTag4 + AbbreviationsPrTag5 + AbbreviationsPrTag6, AbbreviationsPrTag7, 2);
    LowerWordReplacementsConcat(AbbreviationsPrTag1, AbbreviationsPrTag2);
    LowerWordReplacementsConcat(AbbreviationsPrTag1 + AbbreviationsPrTag2, AbbreviationsPrTag3);
    LowerWordReplacementsConcat(AbbreviationsPrTag1 + AbbreviationsPrTag2 + AbbreviationsPrTag3, AbbreviationsPrTag4);
    LowerWordReplacementsConcat(AbbreviationsPrTag1 + AbbreviationsPrTag2 + AbbreviationsPrTag3 + AbbreviationsPrTag4, AbbreviationsPrTag5);
    LowerWordReplacementsConcat(AbbreviationsPrTag1 + AbbreviationsPrTag2 + AbbreviationsPrTag3 + AbbreviationsPrTag4 + AbbreviationsPrTag5, AbbreviationsPrTag6);
    LowerWordReplacementsConcat(AbbreviationsPrTag1 + AbbreviationsPrTag2 + AbbreviationsPrTag3 + AbbreviationsPrTag4 + AbbreviationsPrTag5 + AbbreviationsPrTag6, AbbreviationsPrTag7);
  }

  lemma AbbreviationsPidTagFacts()
    ensures AllLettered(AbbreviationsPidTag) && PatternsLongerThan(AbbreviationsPidTag, 2) && LowerWordReplacements(AbbreviationsPidTag)
  {
    AbbreviationsPidTag1Checked();
    TailCheckedIsLettered(AbbreviationsPidTag1);
    AbbreviationsPidTag1Replacements();
    AbbreviationsPidTag2Checked();
    TailCheckedIsLettered(AbbreviationsPidTag2);
    AbbreviationsPidTag2Replacements();
    AllLetteredConcat(AbbreviationsPidTag1, AbbreviationsPidTag2);
    PatternsLongerThanConcat(AbbreviationsPidTag1, AbbreviationsPidTag2, 2);
    LowerWordReplacementsConcat(AbbreviationsPidTag1, AbbreviationsPidTag2);
  }

  lemma AbbreviationsAnyFacts()
    ensures PatternsLongerThan(AbbreviationsAny, 2) && LowerWordReplacements(AbbreviationsAny)
  {
    AbbreviationsAny1KeepShape();
    AbbreviationsAny1Replacements();
    AbbreviationsAny2KeepShape();
    AbbreviationsAny2Replacements();
    AbbreviationsAny3KeepShape();
    AbbreviationsAny3Replacements();
    AbbreviationsAny4KeepShape();
    AbbreviationsAny4Replacements();
    AbbreviationsAny5KeepShape();
    AbbreviationsAny5Replacements();
    AbbreviationsAny6KeepShape();
    AbbreviationsAny6Replacements();
    AbbreviationsAny7KeepShape();
    AbbreviationsAny7Replacements();
    AbbreviationsAny8KeepShape();
    AbbreviationsAny8Replacements();
    AbbreviationsAny9KeepShape();
    AbbreviationsAny9Replacements();
    PatternsLongerThanConcat(AbbreviationsAny1, AbbreviationsAny2, 2);
    PatternsLongerThanConcat(AbbreviationsAny1 + AbbreviationsAny2, AbbreviationsAny3, 2);
    PatternsLongerThanConcat(AbbreviationsAny1 + AbbreviationsAny2 + AbbreviationsAny3, AbbreviationsAny4, 2);
    PatternsLongerThanConcat(AbbreviationsAny1 + AbbreviationsAny2 + AbbreviationsAny3 + AbbreviationsAny4, AbbreviationsAny5, 2);
    PatternsLongerThanConcat(AbbreviationsAny1 + AbbreviationsAny2 + AbbreviationsAny3 + AbbreviationsAny4 + AbbreviationsAny5, AbbreviationsAny6, 2);
    PatternsLongerThanConcat(AbbreviationsAny1 + AbbreviationsAny2 + AbbreviationsAny3 + AbbreviationsAny4 + AbbreviationsAny5 + AbbreviationsAny6, AbbreviationsAny7, 2);
    PatternsLongerThanConcat(AbbreviationsAny1 + AbbreviationsAny2 + AbbreviationsAny3 + AbbreviationsAny4 + AbbreviationsAny5 + AbbreviationsAny6 + AbbreviationsAny7, AbbreviationsAny8, 2);
    PatternsLongerThanConcat(AbbreviationsAny1 + AbbreviationsAny2 + AbbreviationsAny3 + AbbreviationsAny4 + AbbreviationsAny5 + AbbreviationsAny6 + AbbreviationsAny7 + AbbreviationsAny8, AbbreviationsAny9, 2);
    LowerWordReplacementsConcat(AbbreviationsAny1, AbbreviationsAny2);
    LowerWordReplacementsConcat(AbbreviationsAny1 + AbbreviationsAny2, AbbreviationsAny3);
    LowerWordReplacementsConcat(AbbreviationsAny1 + AbbreviationsAny2 + AbbreviationsAny3, AbbreviationsAny4);
    LowerWordReplacementsConcat(AbbreviationsAny1 + AbbreviationsAny2 + AbbreviationsAny3 + AbbreviationsAny4, AbbreviationsAny5);
    LowerWordReplacementsConcat(AbbreviationsAny1 + AbbreviationsAny2 + AbbreviationsAny3 + AbbreviationsAny4 + AbbreviationsAny5, AbbreviationsAny6);
    LowerWordReplacementsConcat(AbbreviationsAny1 + AbbreviationsAny2 + AbbreviationsAny3 + AbbreviationsAny4 + AbbreviationsAny5 + AbbreviationsAny6, AbbreviationsAny7);
    LowerWordReplacementsConcat(AbbreviationsAny1 + AbbreviationsAny2 + AbbreviationsAny3 + AbbreviationsAny4 + AbbreviationsAny5 + AbbreviationsAny6 + AbbreviationsAny7, AbbreviationsAny8);
    LowerWordReplacementsConcat(AbbreviationsAny1 + AbbreviationsAny2 + AbbreviationsAny3 + AbbreviationsAny4 + AbbreviationsAny5 + AbbreviationsAny6 + AbbreviationsAny7 + AbbreviationsAny8, AbbreviationsAny9);
  }

  /** Every pattern and every replacement of the word splitter, and of the
      kind-scoped abbreviation banks, contains a character other than `_`. */
  lemma TablesAreLettered()
    ensures LetteredBundle(WordsSplitterFilters)
    ensures forall tp :: AllLettered(ScopedBank(Filters, tp))
  {
    WordsSplitterPrTagFacts();
    WordsSplitterPidTagFacts();
    WordsSplitterPTagFacts();
    WordsSplitterAnyFacts();
    AbbreviationsPrTagFacts();
    AbbreviationsPidTagFacts();
    assert AllLettered([]);
    forall tp ensures AllLettered(ScopedBank(WordsSplitterFilters, tp)) {
      if tp !in {PrTag, PidTag, PTag} { assert ScopedBank(WordsSplitterFilters, tp) == []; }
    }
    forall tp ensures AllLettered(ScopedBank(Filters, tp)) {
      if tp !in {PrTag, PidTag} { assert ScopedBank(Filters, tp) == []; }
    }
  }

  /** Every replacement of the word splitter is made of `[a-z0-9_]`, and every
      pattern is at least three characters long. */
  lemma WordsSplitterFiltersFacts()
    ensures LowerWordBundle(WordsSplitterFilters)
    ensures forall tp :: PatternsLongerThan(ScopedBank(WordsSplitterFilters, tp), 2)
    ensures PatternsLongerThan(WordsSplitterFilters.any, 2)
  {
    WordsSplitterPrTagFacts();
    WordsSplitterPidTagFacts();
    WordsSplitterPTagFacts();
    WordsSplitterAnyFacts();
    assert LowerWordReplacements([]) && PatternsLongerThan([], 2);
    forall tp ensures LowerWordReplacements(ScopedBank(WordsSplitterFilters, tp)) && PatternsLongerThan(ScopedBank(WordsSplitterFilters, tp), 2) {
      if tp !in {PrTag, PidTag, PTag} { assert ScopedBank(WordsSplitterFilters, tp) == []; }
    }
  }

  /** Every replacement of the abbreviation expander is made of `[a-z0-9_]`,
      and every pattern is at least three characters long. */
  lemma FiltersFacts()
    ensures LowerWordBundle(Filters)
    ensures forall tp :: PatternsLongerThan(ScopedBank(Filters, tp), 2)
    ensures PatternsLongerThan(Filters.any, 2)
  {
    AbbreviationsPrTagFacts();
    AbbreviationsPidTagFacts();
    AbbreviationsAnyFacts();
    assert LowerWordReplacements([]) && PatternsLongerThan([], 2);
    forall tp ensures LowerWordReplacements(ScopedBank(Filters, tp)) && PatternsLongerThan(ScopedBank(Filters, tp), 2) {
      if tp !in {PrTag, PidTag} { assert ScopedBank(Filters, tp) == []; }
    }
  }

  /** Every rule of the common abbreviation bank keeps the separator shape
      of a canonical name. */
  lemma AbbreviationsAnyKeepShape()
    ensures AllKeepShape(Filters.any)
  {
    AbbreviationsAny1KeepShape();
    AbbreviationsAny2KeepShape();
    AbbreviationsAny3KeepShape();
    AbbreviationsAny4KeepShape();
    AbbreviationsAny5KeepShape();
    AbbreviationsAny6KeepShape();
    AbbreviationsAny7KeepShape();
    AbbreviationsAny8KeepShape();
    AbbreviationsAny9KeepShape();
    AllKeepShapeConcat(AbbreviationsAny1, AbbreviationsAny2);
    AllKeepShapeConcat(AbbreviationsAny1 + AbbreviationsAny2, AbbreviationsAny3);
    AllKeepShapeConcat(AbbreviationsAny1 + AbbreviationsAny2 + AbbreviationsAny3, AbbreviationsAny4);
    AllKeepShapeConcat(AbbreviationsAny1 + AbbreviationsAny2 + AbbreviationsAny3 + AbbreviationsAny4, AbbreviationsAny5);
    AllKeepShapeConcat(AbbreviationsAny1 + AbbreviationsAny2 + AbbreviationsAny3 + AbbreviationsAny4 + AbbreviationsAny5, AbbreviationsAny6);
    AllKeepShapeConcat(AbbreviationsAny1 + AbbreviationsAny2 + AbbreviationsAny3 + AbbreviationsAny4 + AbbreviationsAny5 + AbbreviationsAny6, AbbreviationsAny7);
    AllKeepShapeConcat(AbbreviationsAny1 + AbbreviationsAny2 + AbbreviationsAny3 + AbbreviationsAny4 + AbbreviationsAny5 + AbbreviationsAny6 + AbbreviationsAny7, AbbreviationsAny8);
    AllKeepShapeConcat(AbbreviationsAny1 + AbbreviationsAny2 + AbbreviationsAny3 + AbbreviationsAny4 + AbbreviationsAny5 + AbbreviationsAny6 + AbbreviationsAny7 + AbbreviationsAny8, AbbreviationsAny9);
  }
}
