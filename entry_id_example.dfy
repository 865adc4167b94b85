/** A worked instance of `convertName` from `MAPITagsScraper/nameNormalizer.py`:
    the raw id `PR_ENTRYID` becomes `entry_id`, through the word-splitter
    rule `entryid` -> `entry_id`, whatever `inflection.underscore` does
    (a `PR_` name never reaches it). Every other rule is shown not to occur
    by a certificate: a character of its pattern that the string lacks, or
    a first character that the string does not have early enough. */
module EntryIdExample {
  import opened Strings
  import opened Classifier
  import opened FilterBanks
  import opened RuleTables
  import opened NameNormalizer

  /** `p` has a character outside `cs`. */
  predicate HasForeignChar(p: string, cs: set<char>)
  {
    exists j :: 0 <= j < |p| && p[j] !in cs
  }

  /** The first character of `p` is not found where an occurrence of `p`
      in `s` could start. */
  predicate NoHeadStart(s: string, p: string)
  {
    |p| > 0 && forall m :: 0 <= m <= |s| - |p| ==> s[m] != p[0]
  }

  /** A certificate that `p` does not occur in a string made of `cs`. */
  predicate Avoids(s: string, p: string, cs: set<char>)
  {
    HasForeignChar(p, cs) || NoHeadStart(s, p)
  }

  /** A bank whose every pattern carries a certificate changes nothing. */
  lemma AvoidingRulesChangeNothing(s: string, bank: seq<Rule>, cs: set<char>)
    requires forall i :: 0 <= i < |s| ==> s[i] in cs
    requires forall i :: 0 <= i < |bank| ==> Avoids(s, bank[i].pattern, cs)
    ensures ApplyBank(s, bank) == s
  {
    forall i | 0 <= i < |bank| ensures |bank[i].pattern| > 0 && !Occurs(s, bank[i].pattern) {
      var p := bank[i].pattern;
      assert Avoids(s, p, cs);
      forall m | 0 <= m <= |s| - |p| ensures !OccursAt(s, p, m) {
        if HasForeignChar(p, cs) {
          var j :| 0 <= j < |p| && p[j] !in cs;
          assert s[m..m + |p|][j] == s[m + j];
        } else {
          assert s[m..m + |p|][0] == s[m];
        }
      }
    }
    ApplyBankAbsent(s, bank);
  }

  lemma AbbreviationsPrTag1KeepsEntryid()
    ensures ApplyBank("entryid", AbbreviationsPrTag1) == "entryid"
  {
    var cs := {'d', 'e', 'i', 'n', 'r', 't', 'y'};
    forall i | 0 <= i < |AbbreviationsPrTag1| ensures Avoids("entryid", AbbreviationsPrTag1[i].pattern, cs) {
      if i == 0 { assert AbbreviationsPrTag1[0].pattern == "_oab_"; assert "_oab_"[4] == '_'; }
      else if i == 1 { assert AbbreviationsPrTag1[1].pattern == "ems_ab_"; assert "ems_ab_"[6] == '_'; }
      else if i == 2 { assert AbbreviationsPrTag1[2].pattern == "_addr_"; assert "_addr_"[5] == '_'; }
    }
    assert "entryid"[0] == 'e' && "entryid"[1] == 'n' && "entryid"[2] == 't' && "entryid"[3] == 'r' && "entryid"[4] == 'y' && "entryid"[5] == 'i' && "entryid"[6] == 'd';
    AvoidingRulesChangeNothing("entryid", AbbreviationsPrTag1, cs);
  }

  lemma AbbreviationsPrTag2KeepsEntryid()
    ensures ApplyBank("entryid", AbbreviationsPrTag2) == "entryid"
  {
    var cs := {'d', 'e', 'i', 'n', 'r', 't', 'y'};
    forall i | 0 <= i < |AbbreviationsPrTag2| ensures Avoids("entryid", AbbreviationsPrTag2[i].pattern, cs) {
      if i == 0 { assert AbbreviationsPrTag2[0].pattern == "_auth_"; assert "_auth_"[5] == '_'; }
      else if i == 1 { assert AbbreviationsPrTag2[1].pattern == "_deliv_"; assert "_deliv_"[6] == '_'; }
      else if i == 2 { assert AbbreviationsPrTag2[2].pattern == "abeid"; assert "abeid"[1] == 'b'; }
    }
    assert "entryid"[0] == 'e' && "entryid"[1] == 'n' && "entryid"[2] == 't' && "entryid"[3] == 'r' && "entryid"[4] == 'y' && "entryid"[5] == 'i' && "entryid"[6] == 'd';
    AvoidingRulesChangeNothing("entryid", AbbreviationsPrTag2, cs);
  }

  lemma AbbreviationsPrTag3KeepsEntryid()
    ensures ApplyBank("entryid", AbbreviationsPrTag3) == "entryid"
  {
    var cs := {'d', 'e', 'i', 'n', 'r', 't', 'y'};
    forall i | 0 <= i < |AbbreviationsPrTag3| ensures Avoids("entryid", AbbreviationsPrTag3[i].pattern, cs) {
      if i == 0 { assert AbbreviationsPrTag3[0].pattern == "_eid"; assert "_eid"[0] == '_'; }
      else if i == 1 { assert AbbreviationsPrTag3[1].pattern == "splus"; assert "splus"[4] == 's'; }
      else if i == 2 { assert AbbreviationsPrTag3[2].pattern == "_hab_"; assert "_hab_"[4] == '_'; }
    }
    assert "entryid"[0] == 'e' && "entryid"[1] == 'n' && "entryid"[2] == 't' && "entryid"[3] == 'r' && "entryid"[4] == 'y' && "entryid"[5] == 'i' && "entryid"[6] == 'd';
    AvoidingRulesChangeNothing("entryid", AbbreviationsPrTag3, cs);
  }

  lemma AbbreviationsPrTag4KeepsEntryid()
    ensures ApplyBank("entryid", AbbreviationsPrTag4) == "entryid"
  {
    var cs := {'d', 'e', 'i', 'n', 'r', 't', 'y'};
    forall i | 0 <= i < |AbbreviationsPrTag4| ensures Avoids("entryid", AbbreviationsPrTag4[i].pattern, cs) {
      if i == 0 { assert AbbreviationsPrTag4[0].pattern == "_dl"; assert "_dl"[2] == 'l'; }
      else if i == 1 { assert AbbreviationsPrTag4[1].pattern == "_mhs_"; assert "_mhs_"[4] == '_'; }
      else if i == 2 { assert AbbreviationsPrTag4[2].pattern == "_mta"; assert "_mta"[3] == 'a'; }
    }
    assert "entryid"[0] == 'e' && "entryid"[1] == 'n' && "entryid"[2] == 't' && "entryid"[3] == 'r' && "entryid"[4] == 'y' && "entryid"[5] == 'i' && "entryid"[6] == 'd';
    AvoidingRulesChangeNothing("entryid", AbbreviationsPrTag4, cs);
  }

  lemma AbbreviationsPrTag5KeepsEntryid()
    ensures ApplyBank("entryid", AbbreviationsPrTag5) == "entryid"
  {
    var cs := {'d', 'e', 'i', 'n', 'r', 't', 'y'};
    forall i | 0 <= i < |AbbreviationsPrTag5| ensures Avoids("entryid", AbbreviationsPrTag5[i].pattern, cs) {
      if i == 0 { assert AbbreviationsPrTag5[0].pattern == "_reckey"; assert "_reckey"[4] == 'k'; }
      else if i == 1 { assert AbbreviationsPrTag5[1].pattern == "wb_sf_"; assert "wb_sf_"[5] == '_'; }
      else if i == 2 { assert AbbreviationsPrTag5[2].pattern == "_cont_"; assert "_cont_"[5] == '_'; }
    }
    assert "entryid"[0] == 'e' && "entryid"[1] == 'n' && "entryid"[2] == 't' && "entryid"[3] == 'r' && "entryid"[4] == 'y' && "entryid"[5] == 'i' && "entryid"[6] == 'd';
    AvoidingRulesChangeNothing("entryid", AbbreviationsPrTag5, cs);
  }

  lemma AbbreviationsPrTag6KeepsEntryid()
    ensures ApplyBank("entryid", AbbreviationsPrTag6) == "entryid"
  {
    var cs := {'d', 'e', 'i', 'n', 'r', 't', 'y'};
    forall i | 0 <= i < |AbbreviationsPrTag6| ensures Avoids("entryid", AbbreviationsPrTag6[i].pattern, cs) {
      if i == 0 { assert AbbreviationsPrTag6[0].pattern == "_eid"; assert "_eid"[0] == '_'; }
      else if i == 1 { assert AbbreviationsPrTag6[1].pattern == "loglev"; assert "loglev"[5] == 'v'; }
    }
    assert "entryid"[0] == 'e' && "entryid"[1] == 'n' && "entryid"[2] == 't' && "entryid"[3] == 'r' && "entryid"[4] == 'y' && "entryid"[5] == 'i' && "entryid"[6] == 'd';
    AvoidingRulesChangeNothing("entryid", AbbreviationsPrTag6, cs);
  }

  lemma AbbreviationsPrTag7KeepsEntryid()
    ensures ApplyBank("entryid", AbbreviationsPrTag7) == "entryid"
  {
    var cs := {'d', 'e', 'i', 'n', 'r', 't', 'y'};
    forall i | 0 <= i < |AbbreviationsPrTag7| ensures Avoids("entryid", AbbreviationsPrTag7[i].pattern, cs) {
      if i == 0 { assert AbbreviationsPrTag7[0].pattern == "vrfy"; assert "vrfy"[2] == 'f'; }
      else if i == 1 { assert AbbreviationsPrTag7[1].pattern == "_hdrs_"; assert "_hdrs_"[5] == '_'; }
    }
    assert "entryid"[0] == 'e' && "entryid"[1] == 'n' && "entryid"[2] == 't' && "entryid"[3] == 'r' && "entryid"[4] == 'y' && "entryid"[5] == 'i' && "entryid"[6] == 'd';
    AvoidingRulesChangeNothing("entryid", AbbreviationsPrTag7, cs);
  }

  /** No `PR_` abbreviation rule occurs in `entryid`. */
  lemma AbbreviationsPrTagKeepsEntryid()
    ensures ApplyBank("entryid", AbbreviationsPrTag) == "entryid"
  {
    AbbreviationsPrTag1KeepsEntryid();
    AbbreviationsPrTag2KeepsEntryid();
    AbbreviationsPrTag3KeepsEntryid();
    AbbreviationsPrTag4KeepsEntryid();
    AbbreviationsPrTag5KeepsEntryid();
    AbbreviationsPrTag6KeepsEntryid();
    AbbreviationsPrTag7KeepsEntryid();
    ApplyBankConcat("entryid", AbbreviationsPrTag1, AbbreviationsPrTag2);
    ApplyBankConcat("entryid", AbbreviationsPrTag1 + AbbreviationsPrTag2, AbbreviationsPrTag3);
    ApplyBankConcat("entryid", AbbreviationsPrTag1 + AbbreviationsPrTag2 + AbbreviationsPrTag3, AbbreviationsPrTag4);
    ApplyBankConcat("entryid", AbbreviationsPrTag1 + AbbreviationsPrTag2 + AbbreviationsPrTag3 + AbbreviationsPrTag4, AbbreviationsPrTag5);
    ApplyBankConcat("entryid", AbbreviationsPrTag1 + AbbreviationsPrTag2 + AbbreviationsPrTag3 + AbbreviationsPrTag4 + AbbreviationsPrTag5, AbbreviationsPrTag6);
    ApplyBankConcat("entryid", AbbreviationsPrTag1 + AbbreviationsPrTag2 + AbbreviationsPrTag3 + AbbreviationsPrTag4 + AbbreviationsPrTag5 + AbbreviationsPrTag6, AbbreviationsPrTag7);
  }

  lemma WordsSplitterPrTag1KeepsEntryid()
    ensures ApplyBank("entryid", WordsSplitterPrTag1) == "entryid"
  {
    var cs := {'d', 'e', 'i', 'n', 'r', 't', 'y'};
    forall i | 0 <= i < |WordsSplitterPrTag1| ensures Avoids("entryid", WordsSplitterPrTag1[i].pattern, cs) {
      if i == 0 { assert WordsSplitterPrTag1[0].pattern == "emsmdb"; assert "emsmdb"[5] == 'b'; }
      else if i == 1 { assert WordsSplitterPrTag1[1].pattern == "addrtype"; assert "addrtype"[6] == 'p'; }
      else if i == 2 { assert WordsSplitterPrTag1[2].pattern == "oraddress"; assert "oraddress"[8] == 's'; }
      else if i == 3 { assert WordsSplitterPrTag1[3].pattern == "storeeid"; assert "storeeid"[2] == 'o'; }
      else if i == 4 { assert WordsSplitterPrTag1[4].pattern == "_svreid"; assert "_svreid"[2] == 'v'; }
      else if i == 5 { assert WordsSplitterPrTag1[5].pattern == "seqid"; assert "seqid"[2] == 'q'; }
    }
    assert "entryid"[0] == 'e' && "entryid"[1] == 'n' && "entryid"[2] == 't' && "entryid"[3] == 'r' && "entryid"[4] == 'y' && "entryid"[5] == 'i' && "entryid"[6] == 'd';
    AvoidingRulesChangeNothing("entryid", WordsSplitterPrTag1, cs);
  }

  lemma WordsSplitterPrTag2HeadKeepsEntryid()
    ensures ApplyBank("entryid", WordsSplitterPrTag2[..3]) == "entryid"
  {
    var cs := {'d', 'e', 'i', 'n', 'r', 't', 'y'};
    forall i | 0 <= i < |WordsSplitterPrTag2[..3]| ensures Avoids("entryid", WordsSplitterPrTag2[..3][i].pattern, cs) {
      if i == 0 { assert WordsSplitterPrTag2[..3][0].pattern == "draftid"; assert "draftid"[3] == 'f'; }
      else if i == 1 { assert WordsSplitterPrTag2[..3][1].pattern == "srchid"; assert "srchid"[3] == 'h'; }
      else if i == 2 { assert WordsSplitterPrTag2[..3][2].pattern == "oflid"; assert "oflid"[2] == 'l'; }
    }
    assert "entryid"[0] == 'e' && "entryid"[1] == 'n' && "entryid"[2] == 't' && "entryid"[3] == 'r' && "entryid"[4] == 'y' && "entryid"[5] == 'i' && "entryid"[6] == 'd';
    AvoidingRulesChangeNothing("entryid", WordsSplitterPrTag2[..3], cs);
  }

  lemma WordsSplitterPrTag2TailKeepsEntryId()
    ensures ApplyBank("entry_id", WordsSplitterPrTag2[4..]) == "entry_id"
  {
    var cs := {'_', 'd', 'e', 'i', 'n', 'r', 't', 'y'};
    forall i | 0 <= i < |WordsSplitterPrTag2[4..]| ensures Avoids("entry_id", WordsSplitterPrTag2[4..][i].pattern, cs) {
      if i == 0 { assert WordsSplitterPrTag2[4..][0].pattern == "linkid"; assert "linkid"[3] == 'k'; }
      else if i == 1 { assert WordsSplitterPrTag2[4..][1].pattern == "replacetime"; assert "replacetime"[9] == 'm'; }
    }
    assert "entry_id"[0] == 'e' && "entry_id"[1] == 'n' && "entry_id"[2] == 't' && "entry_id"[3] == 'r' && "entry_id"[4] == 'y' && "entry_id"[5] == '_' && "entry_id"[6] == 'i' && "entry_id"[7] == 'd';
    AvoidingRulesChangeNothing("entry_id", WordsSplitterPrTag2[4..], cs);
  }

  lemma EntryidRuleFires()
    ensures ReplaceAll("entryid", "entryid", "entry_id") == "entry_id"
  {
  }

  /** The rule `entryid` -> `entry_id` fires; the rules around it do not. */
  lemma WordsSplitterPrTag2SplitsEntryid()
    ensures ApplyBank("entryid", WordsSplitterPrTag2) == "entry_id"
  {
    var bank := WordsSplitterPrTag2;
    WordsSplitterPrTag2HeadKeepsEntryid();
    WordsSplitterPrTag2TailKeepsEntryId();
    assert bank == bank[..3] + bank[3..];
    ApplyBankConcat("entryid", bank[..3], bank[3..]);
    assert bank[3..][0] == Rule("entryid", "entry_id") && bank[3..][1..] == bank[4..];
    EntryidRuleFires();
  }

  lemma WordsSplitterPrTag3KeepsEntryId()
    ensures ApplyBank("entry_id", WordsSplitterPrTag3) == "entry_id"
  {
    var cs := {'_', 'd', 'e', 'i', 'n', 'r', 't', 'y'};
    forall i | 0 <= i < |WordsSplitterPrTag3| ensures Avoids("entry_id", WordsSplitterPrTag3[i].pattern, cs) {
      if i == 0 { assert WordsSplitterPrTag3[0].pattern == "trackstatus"; assert "trackstatus"[10] == 's'; }
      else if i == 1 { assert WordsSplitterPrTag3[1].pattern == "clientid"; assert "clientid"[1] == 'l'; }
      else if i == 2 { assert WordsSplitterPrTag3[2].pattern == "parentid"; assert "parentid"[1] == 'a'; }
      else if i == 3 { assert WordsSplitterPrTag3[3].pattern == "enabledon"; assert "enabledon"[7] == 'o'; }
      else if i == 4 { assert WordsSplitterPrTag3[4].pattern == "onserver"; assert "onserver"[5] == 'v'; }
      else if i == 5 { assert WordsSplitterPrTag3[5].pattern == "schdinfo_"; assert "schdinfo_"[7] == 'o'; }
    }
    assert "entry_id"[0] == 'e' && "entry_id"[1] == 'n' && "entry_id"[2] == 't' && "entry_id"[3] == 'r' && "entry_id"[4] == 'y' && "entry_id"[5] == '_' && "entry_id"[6] == 'i' && "entry_id"[7] == 'd';
    AvoidingRulesChangeNothing("entry_id", WordsSplitterPrTag3, cs);
  }

  lemma WordsSplitterPrTag4KeepsEntryId()
    ensures ApplyBank("entry_id", WordsSplitterPrTag4) == "entry_id"
  {
    var cs := {'_', 'd', 'e', 'i', 'n', 'r', 't', 'y'};
    forall i | 0 <= i < |WordsSplitterPrTag4| ensures Avoids("entry_id", WordsSplitterPrTag4[i].pattern, cs) {
      if i == 0 { assert WordsSplitterPrTag4[0].pattern == "_freebusy_"; assert "_freebusy_"[7] == 's'; }
      else if i == 1 { assert WordsSplitterPrTag4[1].pattern == "_mtsout_"; assert "_mtsout_"[5] == 'u'; }
      else if i == 2 { assert WordsSplitterPrTag4[2].pattern == "_mtsin_"; assert "_mtsin_"[3] == 's'; }
      else if i == 3 { assert WordsSplitterPrTag4[3].pattern == "xmlstream"; assert "xmlstream"[8] == 'm'; }
      else if i == 4 { assert WordsSplitterPrTag4[4].pattern == "containerid"; assert "containerid"[4] == 'a'; }
      else if i == 5 { assert WordsSplitterPrTag4[5].pattern == "templateid"; assert "templateid"[5] == 'a'; }
    }
    assert "entry_id"[0] == 'e' && "entry_id"[1] == 'n' && "entry_id"[2] == 't' && "entry_id"[3] == 'r' && "entry_id"[4] == 'y' && "entry_id"[5] == '_' && "entry_id"[6] == 'i' && "entry_id"[7] == 'd';
    AvoidingRulesChangeNothing("entry_id", WordsSplitterPrTag4, cs);
  }

  lemma WordsSplitterPrTag5KeepsEntryId()
    ensures ApplyBank("entry_id", WordsSplitterPrTag5) == "entry_id"
  {
    var cs := {'_', 'd', 'e', 'i', 'n', 'r', 't', 'y'};
    forall i | 0 <= i < |WordsSplitterPrTag5| ensures Avoids("entry_id", WordsSplitterPrTag5[i].pattern, cs) {
      if i == 0 { assert WordsSplitterPrTag5[0].pattern == "proposedendtime"; assert "proposedendtime"[13] == 'm'; }
      else if i == 1 { assert WordsSplitterPrTag5[1].pattern == "proposedstarttime"; assert "proposedstarttime"[15] == 'm'; }
      else if i == 2 { assert WordsSplitterPrTag5[2].pattern == "starttime"; assert "starttime"[7] == 'm'; }
      else if i == 3 { assert WordsSplitterPrTag5[3].pattern == "contactphoto"; assert "contactphoto"[11] == 'o'; }
      else if i == 4 { assert WordsSplitterPrTag5[4].pattern == "freebusy"; assert "freebusy"[6] == 's'; }
      else if i == 5 { assert WordsSplitterPrTag5[5].pattern == "sendpost"; assert "sendpost"[6] == 's'; }
    }
    assert "entry_id"[0] == 'e' && "entry_id"[1] == 'n' && "entry_id"[2] == 't' && "entry_id"[3] == 'r' && "entry_id"[4] == 'y' && "entry_id"[5] == '_' && "entry_id"[6] == 'i' && "entry_id"[7] == 'd';
    AvoidingRulesChangeNothing("entry_id", WordsSplitterPrTag5, cs);
  }

  lemma WordsSplitterPrTag6KeepsEntryId()
    ensures ApplyBank("entry_id", WordsSplitterPrTag6) == "entry_id"
  {
    var cs := {'_', 'd', 'e', 'i', 'n', 'r', 't', 'y'};
    forall i | 0 <= i < |WordsSplitterPrTag6| ensures Avoids("entry_id", WordsSplitterPrTag6[i].pattern, cs) {
      if i == 0 { assert WordsSplitterPrTag6[0].pattern == "readpost"; assert "readpost"[6] == 's'; }
      else if i == 1 { assert WordsSplitterPrTag6[1].pattern == "reportnote"; assert "reportnote"[7] == 'o'; }
      else if i == 2 { assert WordsSplitterPrTag6[2].pattern == "sendnote"; assert "sendnote"[5] == 'o'; }
      else if i == 3 { assert WordsSplitterPrTag6[3].pattern == "readnote"; assert "readnote"[5] == 'o'; }
      else if i == 4 { assert WordsSplitterPrTag6[4].pattern == "endtxt"; assert "endtxt"[4] == 'x'; }
      else if i == 5 { assert WordsSplitterPrTag6[5].pattern == "begintxt"; assert "begintxt"[6] == 'x'; }
    }
    assert "entry_id"[0] == 'e' && "entry_id"[1] == 'n' && "entry_id"[2] == 't' && "entry_id"[3] == 'r' && "entry_id"[4] == 'y' && "entry_id"[5] == '_' && "entry_id"[6] == 'i' && "entry_id"[7] == 'd';
    AvoidingRulesChangeNothing("entry_id", WordsSplitterPrTag6, cs);
  }

  lemma WordsSplitterPrTag7KeepsEntryId()
    ensures ApplyBank("entry_id", WordsSplitterPrTag7) == "entry_id"
  {
    var cs := {'_', 'd', 'e', 'i', 'n', 'r', 't', 'y'};
    forall i | 0 <= i < |WordsSplitterPrTag7| ensures Avoids("entry_id", WordsSplitterPrTag7[i].pattern, cs) {
      if i == 0 { assert WordsSplitterPrTag7[0].pattern == "bodytag"; assert "bodytag"[6] == 'g'; }
      else if i == 1 { assert WordsSplitterPrTag7[1].pattern == "migrateprofile"; assert "migrateprofile"[12] == 'l'; }
      else if i == 2 { assert WordsSplitterPrTag7[2].pattern == "changenum"; assert "changenum"[8] == 'm'; }
      else if i == 3 { assert WordsSplitterPrTag7[3].pattern == "versionhistory"; assert "versionhistory"[11] == 'o'; }
      else if i == 4 { assert WordsSplitterPrTag7[4].pattern == "versionskeleton"; assert "versionskeleton"[13] == 'o'; }
      else if i == 5 { assert WordsSplitterPrTag7[5].pattern == "serverid"; assert "serverid"[3] == 'v'; }
    }
    assert "entry_id"[0] == 'e' && "entry_id"[1] == 'n' && "entry_id"[2] == 't' && "entry_id"[3] == 'r' && "entry_id"[4] == 'y' && "entry_id"[5] == '_' && "entry_id"[6] == 'i' && "entry_id"[7] == 'd';
    AvoidingRulesChangeNothing("entry_id", WordsSplitterPrTag7, cs);
  }

  lemma WordsSplitterPrTag8KeepsEntryId()
    ensures ApplyBank("entry_id", WordsSplitterPrTag8) == "entry_id"
  {
    var cs := {'_', 'd', 'e', 'i', 'n', 'r', 't', 'y'};
    forall i | 0 <= i < |WordsSplitterPrTag8| ensures Avoids("entry_id", WordsSplitterPrTag8[i].pattern, cs) {
      if i == 0 { assert WordsSplitterPrTag8[0].pattern == "subitemid"; assert "subitemid"[6] == 'm'; }
      else if i == 1 { assert WordsSplitterPrTag8[1].pattern == "inetmail"; assert "inetmail"[7] == 'l'; }
      else if i == 2 { assert WordsSplitterPrTag8[2].pattern == "dotstuff"; assert "dotstuff"[7] == 'f'; }
      else if i == 3 { assert WordsSplitterPrTag8[3].pattern == "newsfeed"; assert "newsfeed"[4] == 'f'; }
      else if i == 4 { assert WordsSplitterPrTag8[4].pattern == "peruser"; assert "peruser"[4] == 's'; }
      else if i == 5 { assert WordsSplitterPrTag8[5].pattern == "mailbeat"; assert "mailbeat"[6] == 'a'; }
    }
    assert "entry_id"[0] == 'e' && "entry_id"[1] == 'n' && "entry_id"[2] == 't' && "entry_id"[3] == 'r' && "entry_id"[4] == 'y' && "entry_id"[5] == '_' && "entry_id"[6] == 'i' && "entry_id"[7] == 'd';
    AvoidingRulesChangeNothing("entry_id", WordsSplitterPrTag8, cs);
  }

  lemma WordsSplitterPrTag9KeepsEntryId()
    ensures ApplyBank("entry_id", WordsSplitterPrTag9) == "entry_id"
  {
    var cs := {'_', 'd', 'e', 'i', 'n', 'r', 't', 'y'};
    forall i | 0 <= i < |WordsSplitterPrTag9| ensures Avoids("entry_id", WordsSplitterPrTag9[i].pattern, cs) {
      if i == 0 { assert WordsSplitterPrTag9[0].pattern == "hotsite"; assert "hotsite"[3] == 's'; }
      else if i == 1 { assert WordsSplitterPrTag9[1].pattern == "endtime"; assert "endtime"[5] == 'm'; }
      else if i == 2 { assert WordsSplitterPrTag9[2].pattern == "fixfont"; assert "fixfont"[4] == 'o'; }
      else if i == 3 { assert WordsSplitterPrTag9[3].pattern == "ccwrap"; assert "ccwrap"[5] == 'p'; }
      else if i == 4 { assert WordsSplitterPrTag9[4].pattern == "metatag"; assert "metatag"[6] == 'g'; }
      else if i == 5 { assert WordsSplitterPrTag9[5].pattern == "iconurl"; assert "iconurl"[6] == 'l'; }
    }
    assert "entry_id"[0] == 'e' && "entry_id"[1] == 'n' && "entry_id"[2] == 't' && "entry_id"[3] == 'r' && "entry_id"[4] == 'y' && "entry_id"[5] == '_' && "entry_id"[6] == 'i' && "entry_id"[7] == 'd';
    AvoidingRulesChangeNothing("entry_id", WordsSplitterPrTag9, cs);
  }

  lemma WordsSplitterPrTag10KeepsEntryId()
    ensures ApplyBank("entry_id", WordsSplitterPrTag10) == "entry_id"
  {
    var cs := {'_', 'd', 'e', 'i', 'n', 'r', 't', 'y'};
    forall i | 0 <= i < |WordsSplitterPrTag10| ensures Avoids("entry_id", WordsSplitterPrTag10[i].pattern, cs) {
      if i == 0 { assert WordsSplitterPrTag10[0].pattern == "itemproc"; assert "itemproc"[7] == 'c'; }
      else if i == 1 { assert WordsSplitterPrTag10[1].pattern == "viewinfo"; assert "viewinfo"[7] == 'o'; }
      else if i == 2 { assert WordsSplitterPrTag10[2].pattern == "displayname"; assert "displayname"[9] == 'm'; }
      else if i == 3 { assert WordsSplitterPrTag10[3].pattern == "fxsrcstream"; assert "fxsrcstream"[10] == 'm'; }
      else if i == 4 { assert WordsSplitterPrTag10[4].pattern == "fxdeststream"; assert "fxdeststream"[11] == 'm'; }
      else if i == 5 { assert WordsSplitterPrTag10[5].pattern == "othermailbox"; assert "othermailbox"[11] == 'x'; }
    }
    assert "entry_id"[0] == 'e' && "entry_id"[1] == 'n' && "entry_id"[2] == 't' && "entry_id"[3] == 'r' && "entry_id"[4] == 'y' && "entry_id"[5] == '_' && "entry_id"[6] == 'i' && "entry_id"[7] == 'd';
    AvoidingRulesChangeNothing("entry_id", WordsSplitterPrTag10, cs);
  }

  lemma WordsSplitterPrTag11KeepsEntryId()
    ensures ApplyBank("entry_id", WordsSplitterPrTag11) == "entry_id"
  {
    var cs := {'_', 'd', 'e', 'i', 'n', 'r', 't', 'y'};
    forall i | 0 <= i < |WordsSplitterPrTag11| ensures Avoids("entry_id", WordsSplitterPrTag11[i].pattern, cs) {
      if i == 0 { assert WordsSplitterPrTag11[0].pattern == "viewprivate"; assert "viewprivate"[8] == 'a'; }
      else if i == 1 { assert WordsSplitterPrTag11[1].pattern == "foldertype"; assert "foldertype"[8] == 'p'; }
      else if i == 2 { assert WordsSplitterPrTag11[2].pattern == "viewtype"; assert "viewtype"[6] == 'p'; }
      else if i == 3 { assert WordsSplitterPrTag11[3].pattern == "ostid"; assert "ostid"[1] == 's'; }
      else if i == 4 { assert WordsSplitterPrTag11[4].pattern == "shareddata"; assert "shareddata"[9] == 'a'; }
      else if i == 5 { assert WordsSplitterPrTag11[5].pattern == "notfound"; assert "notfound"[5] == 'u'; }
    }
    assert "entry_id"[0] == 'e' && "entry_id"[1] == 'n' && "entry_id"[2] == 't' && "entry_id"[3] == 'r' && "entry_id"[4] == 'y' && "entry_id"[5] == '_' && "entry_id"[6] == 'i' && "entry_id"[7] == 'd';
    AvoidingRulesChangeNothing("entry_id", WordsSplitterPrTag11, cs);
  }

  lemma WordsSplitterPrTag12KeepsEntryId()
    ensures ApplyBank("entry_id", WordsSplitterPrTag12) == "entry_id"
  {
    var cs := {'_', 'd', 'e', 'i', 'n', 'r', 't', 'y'};
    forall i | 0 <= i < |WordsSplitterPrTag12| ensures Avoids("entry_id", WordsSplitterPrTag12[i].pattern, cs) {
      if i == 0 { assert WordsSplitterPrTag12[0].pattern == "mapiuid"; assert "mapiuid"[4] == 'u'; }
      else if i == 1 { assert WordsSplitterPrTag12[1].pattern == "mapiform"; assert "mapiform"[7] == 'm'; }
      else if i == 2 { assert WordsSplitterPrTag12[2].pattern == "phonebook"; assert "phonebook"[8] == 'k'; }
      else if i == 3 { assert WordsSplitterPrTag12[3].pattern == "testclsid"; assert "testclsid"[6] == 's'; }
      else if i == 4 { assert WordsSplitterPrTag12[4].pattern == "labeleduri"; assert "labeleduri"[7] == 'u'; }
      else if i == 5 { assert WordsSplitterPrTag12[5].pattern == "dispname"; assert "dispname"[6] == 'm'; }
    }
    assert "entry_id"[0] == 'e' && "entry_id"[1] == 'n' && "entry_id"[2] == 't' && "entry_id"[3] == 'r' && "entry_id"[4] == 'y' && "entry_id"[5] == '_' && "entry_id"[6] == 'i' && "entry_id"[7] == 'd';
    AvoidingRulesChangeNothing("entry_id", WordsSplitterPrTag12, cs);
  }

  lemma WordsSplitterPrTag13KeepsEntryId()
    ensures ApplyBank("entry_id", WordsSplitterPrTag13) == "entry_id"
  {
    var cs := {'_', 'd', 'e', 'i', 'n', 'r', 't', 'y'};
    forall i | 0 <= i < |WordsSplitterPrTag13| ensures Avoids("entry_id", WordsSplitterPrTag13[i].pattern, cs) {
      if i == 0 { assert WordsSplitterPrTag13[0].pattern == "syncevent"; assert "syncevent"[5] == 'v'; }
      else if i == 1 { assert WordsSplitterPrTag13[1].pattern == "slowlink"; assert "slowlink"[7] == 'k'; }
      else if i == 2 { assert WordsSplitterPrTag13[2].pattern == "dialup"; assert "dialup"[5] == 'p'; }
      else if i == 3 { assert WordsSplitterPrTag13[3].pattern == "waitfor"; assert "waitfor"[5] == 'o'; }
      else if i == 4 { assert WordsSplitterPrTag13[4].pattern == "mimewrap"; assert "mimewrap"[7] == 'p'; }
      else if i == 5 { assert WordsSplitterPrTag13[5].pattern == "tcpip"; assert "tcpip"[4] == 'p'; }
    }
    assert "entry_id"[0] == 'e' && "entry_id"[1] == 'n' && "entry_id"[2] == 't' && "entry_id"[3] == 'r' && "entry_id"[4] == 'y' && "entry_id"[5] == '_' && "entry_id"[6] == 'i' && "entry_id"[7] == 'd';
    AvoidingRulesChangeNothing("entry_id", WordsSplitterPrTag13, cs);
  }

  lemma WordsSplitterPrTag14KeepsEntryId()
    ensures ApplyBank("entry_id", WordsSplitterPrTag14) == "entry_id"
  {
    var cs := {'_', 'd', 'e', 'i', 'n', 'r', 't', 'y'};
    forall i | 0 <= i < |WordsSplitterPrTag14| ensures Avoids("entry_id", WordsSplitterPrTag14[i].pattern, cs) {
      if i == 0 { assert WordsSplitterPrTag14[0].pattern == "traceinfo"; assert "traceinfo"[8] == 'o'; }
      else if i == 1 { assert WordsSplitterPrTag14[1].pattern == "spamtype"; assert "spamtype"[6] == 'p'; }
      else if i == 2 { assert WordsSplitterPrTag14[2].pattern == "userfields"; assert "userfields"[9] == 's'; }
      else if i == 3 { assert WordsSplitterPrTag14[3].pattern == "viewlist"; assert "viewlist"[6] == 's'; }
      else if i == 4 { assert WordsSplitterPrTag14[4].pattern == "clearprops"; assert "clearprops"[9] == 's'; }
      else if i == 5 { assert WordsSplitterPrTag14[5].pattern == "logfile"; assert "logfile"[5] == 'l'; }
    }
    assert "entry_id"[0] == 'e' && "entry_id"[1] == 'n' && "entry_id"[2] == 't' && "entry_id"[3] == 'r' && "entry_id"[4] == 'y' && "entry_id"[5] == '_' && "entry_id"[6] == 'i' && "entry_id"[7] == 'd';
    AvoidingRulesChangeNothing("entry_id", WordsSplitterPrTag14, cs);
  }

  lemma WordsSplitterPrTag15KeepsEntryId()
    ensures ApplyBank("entry_id", WordsSplitterPrTag15) == "entry_id"
  {
    var cs := {'_', 'd', 'e', 'i', 'n', 'r', 't', 'y'};
    forall i | 0 <= i < |WordsSplitterPrTag15| ensures Avoids("entry_id", WordsSplitterPrTag15[i].pattern, cs) {
      if i == 0 { assert WordsSplitterPrTag15[0].pattern == "deltax"; assert "deltax"[5] == 'x'; }
      else if i == 1 { assert WordsSplitterPrTag15[1].pattern == "deltay"; assert "deltay"[4] == 'a'; }
      else if i == 2 { assert WordsSplitterPrTag15[2].pattern == "xpos"; assert "xpos"[3] == 's'; }
      else if i == 3 { assert WordsSplitterPrTag15[3].pattern == "ypos"; assert "ypos"[3] == 's'; }
      else if i == 4 { assert WordsSplitterPrTag15[4].pattern == "mailfrom"; assert "mailfrom"[7] == 'm'; }
      else if i == 5 { assert WordsSplitterPrTag15[5].pattern == "datainit"; assert "datainit"[3] == 'a'; }
    }
    assert "entry_id"[0] == 'e' && "entry_id"[1] == 'n' && "entry_id"[2] == 't' && "entry_id"[3] == 'r' && "entry_id"[4] == 'y' && "entry_id"[5] == '_' && "entry_id"[6] == 'i' && "entry_id"[7] == 'd';
    AvoidingRulesChangeNothing("entry_id", WordsSplitterPrTag15, cs);
  }

  lemma WordsSplitterPrTag16KeepsEntryId()
    ensures ApplyBank("entry_id", WordsSplitterPrTag16) == "entry_id"
  {
    var cs := {'_', 'd', 'e', 'i', 'n', 'r', 't', 'y'};
    forall i | 0 <= i < |WordsSplitterPrTag16| ensures Avoids("entry_id", WordsSplitterPrTag16[i].pattern, cs) {
      if i == 0 { assert WordsSplitterPrTag16[0].pattern == "dataterm"; assert "dataterm"[7] == 'm'; }
      else if i == 1 { assert WordsSplitterPrTag16[1].pattern == "outq_"; assert "outq_"[3] == 'q'; }
      else if i == 2 { assert WordsSplitterPrTag16[2].pattern == "inq_"; assert "inq_"[2] == 'q'; }
      else if i == 3 { assert WordsSplitterPrTag16[3].pattern == "datablock"; assert "datablock"[8] == 'k'; }
      else if i == 4 { assert WordsSplitterPrTag16[4].pattern == "viewflags"; assert "viewflags"[8] == 's'; }
      else if i == 5 { assert WordsSplitterPrTag16[5].pattern == "saveas"; assert "saveas"[5] == 's'; }
    }
    assert "entry_id"[0] == 'e' && "entry_id"[1] == 'n' && "entry_id"[2] == 't' && "entry_id"[3] == 'r' && "entry_id"[4] == 'y' && "entry_id"[5] == '_' && "entry_id"[6] == 'i' && "entry_id"[7] == 'd';
    AvoidingRulesChangeNothing("entry_id", WordsSplitterPrTag16, cs);
  }

  lemma WordsSplitterPrTag17KeepsEntryId()
    ensures ApplyBank("entry_id", WordsSplitterPrTag17) == "entry_id"
  {
    var cs := {'_', 'd', 'e', 'i', 'n', 'r', 't', 'y'};
    forall i | 0 <= i < |WordsSplitterPrTag17| ensures Avoids("entry_id", WordsSplitterPrTag17[i].pattern, cs) {
      if i == 0 { assert WordsSplitterPrTag17[0].pattern == "folderid"; assert "folderid"[2] == 'l'; }
      else if i == 1 { assert WordsSplitterPrTag17[1].pattern == "portno"; assert "portno"[5] == 'o'; }
      else if i == 2 { assert WordsSplitterPrTag17[2].pattern == "bifinfo"; assert "bifinfo"[6] == 'o'; }
      else if i == 3 { assert WordsSplitterPrTag17[3].pattern == "msgtracking"; assert "msgtracking"[10] == 'g'; }
      else if i == 4 { assert WordsSplitterPrTag17[4].pattern == "autoresponse"; assert "autoresponse"[10] == 's'; }
      else if i == 5 { assert WordsSplitterPrTag17[5].pattern == "favfld"; assert "favfld"[4] == 'l'; }
    }
    assert "entry_id"[0] == 'e' && "entry_id"[1] == 'n' && "entry_id"[2] == 't' && "entry_id"[3] == 'r' && "entry_id"[4] == 'y' && "entry_id"[5] == '_' && "entry_id"[6] == 'i' && "entry_id"[7] == 'd';
    AvoidingRulesChangeNothing("entry_id", WordsSplitterPrTag17, cs);
  }

  lemma WordsSplitterPrTag18KeepsEntryId()
    ensures ApplyBank("entry_id", WordsSplitterPrTag18) == "entry_id"
  {
    var cs := {'_', 'd', 'e', 'i', 'n', 'r', 't', 'y'};
    forall i | 0 <= i < |WordsSplitterPrTag18| ensures Avoids("entry_id", WordsSplitterPrTag18[i].pattern, cs) {
      if i == 0 { assert WordsSplitterPrTag18[0].pattern == "bodypart"; assert "bodypart"[5] == 'a'; }
      else if i == 1 { assert WordsSplitterPrTag18[1].pattern == "listinfo"; assert "listinfo"[7] == 'o'; }
      else if i == 2 { assert WordsSplitterPrTag18[2].pattern == "reqcn"; assert "reqcn"[3] == 'c'; }
      else if i == 3 { assert WordsSplitterPrTag18[3].pattern == "reqname"; assert "reqname"[5] == 'm'; }
      else if i == 4 { assert WordsSplitterPrTag18[4].pattern == "insadmin"; assert "insadmin"[5] == 'm'; }
    }
    assert "entry_id"[0] == 'e' && "entry_id"[1] == 'n' && "entry_id"[2] == 't' && "entry_id"[3] == 'r' && "entry_id"[4] == 'y' && "entry_id"[5] == '_' && "entry_id"[6] == 'i' && "entry_id"[7] == 'd';
    AvoidingRulesChangeNothing("entry_id", WordsSplitterPrTag18, cs);
  }

  /** The `PR_` word splitter turns `entryid` into `entry_id`. */
  lemma WordsSplitterPrTagSplitsEntryid()
    ensures ApplyBank("entryid", WordsSplitterPrTag) == "entry_id"
  {
    WordsSplitterPrTag1KeepsEntryid();
    WordsSplitterPrTag2SplitsEntryid();
    WordsSplitterPrTag3KeepsEntryId();
    WordsSplitterPrTag4KeepsEntryId();
    WordsSplitterPrTag5KeepsEntryId();
    WordsSplitterPrTag6KeepsEntryId();
    WordsSplitterPrTag7KeepsEntryId();
    WordsSplitterPrTag8KeepsEntryId();
    WordsSplitterPrTag9KeepsEntryId();
    WordsSplitterPrTag10KeepsEntryId();
    WordsSplitterPrTag11KeepsEntryId();
    WordsSplitterPrTag12KeepsEntryId();
    WordsSplitterPrTag13KeepsEntryId();
    WordsSplitterPrTag14KeepsEntryId();
    WordsSplitterPrTag15KeepsEntryId();
    WordsSplitterPrTag16KeepsEntryId();
    WordsSplitterPrTag17KeepsEntryId();
    WordsSplitterPrTag18KeepsEntryId();
    ApplyBankConcat("entryid", WordsSplitterPrTag1, WordsSplitterPrTag2);
    ApplyBankConcat("entryid", WordsSplitterPrTag1 + WordsSplitterPrTag2, WordsSplitterPrTag3);
    ApplyBankConcat("entryid", WordsSplitterPrTag1 + WordsSplitterPrTag2 + WordsSplitterPrTag3, WordsSplitterPrTag4);
    ApplyBankConcat("entryid", WordsSplitterPrTag1 + WordsSplitterPrTag2 + WordsSplitterPrTag3 + WordsSplitterPrTag4, WordsSplitterPrTag5);
    ApplyBankConcat("entryid", WordsSplitterPrTag1 + WordsSplitterPrTag2 + WordsSplitterPrTag3 + WordsSplitterPrTag4 + WordsSplitterPrTag5, WordsSplitterPrTag6);
    ApplyBankConcat("entryid", WordsSplitterPrTag1 + WordsSplitterPrTag2 + WordsSplitterPrTag3 + WordsSplitterPrTag4 + WordsSplitterPrTag5 + WordsSplitterPrTag6, WordsSplitterPrTag7);
    ApplyBankConcat("entryid", WordsSplitterPrTag1 + WordsSplitterPrTag2 + WordsSplitterPrTag3 + WordsSplitterPrTag4 + WordsSplitterPrTag5 + WordsSplitterPrTag6 + WordsSplitterPrTag7, WordsSplitterPrTag8);
    ApplyBankConcat("entryid", WordsSplitterPrTag1 + WordsSplitterPrTag2 + WordsSplitterPrTag3 + WordsSplitterPrTag4 + WordsSplitterPrTag5 + WordsSplitterPrTag6 + WordsSplitterPrTag7 + WordsSplitterPrTag8, WordsSplitterPrTag9);
    ApplyBankConcat("entryid", WordsSplitterPrTag1 + WordsSplitterPrTag2 + WordsSplitterPrTag3 + WordsSplitterPrTag4 + WordsSplitterPrTag5 + WordsSplitterPrTag6 + WordsSplitterPrTag7 + WordsSplitterPrTag8 + WordsSplitterPrTag9, WordsSplitterPrTag10);
    ApplyBankConcat("entryid", WordsSplitterPrTag1 + WordsSplitterPrTag2 + WordsSplitterPrTag3 + WordsSplitterPrTag4 + WordsSplitterPrTag5 + WordsSplitterPrTag6 + WordsSplitterPrTag7 + WordsSplitterPrTag8 + WordsSplitterPrTag9 + WordsSplitterPrTag10, WordsSplitterPrTag11);
    ApplyBankConcat("entryid", WordsSplitterPrTag1 + WordsSplitterPrTag2 + WordsSplitterPrTag3 + WordsSplitterPrTag4 + WordsSplitterPrTag5 + WordsSplitterPrTag6 + WordsSplitterPrTag7 + WordsSplitterPrTag8 + WordsSplitterPrTag9 + WordsSplitterPrTag10 + WordsSplitterPrTag11, WordsSplitterPrTag12);
    ApplyBankConcat("entryid", WordsSplitterPrTag1 + WordsSplitterPrTag2 + WordsSplitterPrTag3 + WordsSplitterPrTag4 + WordsSplitterPrTag5 + WordsSplitterPrTag6 + WordsSplitterPrTag7 + WordsSplitterPrTag8 + WordsSplitterPrTag9 + WordsSplitterPrTag10 + WordsSplitterPrTag11 + WordsSplitterPrTag12, WordsSplitterPrTag13);
    ApplyBankConcat("entryid", WordsSplitterPrTag1 + WordsSplitterPrTag2 + WordsSplitterPrTag3 + WordsSplitterPrTag4 + WordsSplitterPrTag5 + WordsSplitterPrTag6 + WordsSplitterPrTag7 + WordsSplitterPrTag8 + WordsSplitterPrTag9 + WordsSplitterPrTag10 + WordsSplitterPrTag11 + WordsSplitterPrTag12 + WordsSplitterPrTag13, WordsSplitterPrTag14);
    ApplyBankConcat("entryid", WordsSplitterPrTag1 + WordsSplitterPrTag2 + WordsSplitterPrTag3 + WordsSplitterPrTag4 + WordsSplitterPrTag5 + WordsSplitterPrTag6 + WordsSplitterPrTag7 + WordsSplitterPrTag8 + WordsSplitterPrTag9 + WordsSplitterPrTag10 + WordsSplitterPrTag11 + WordsSplitterPrTag12 + WordsSplitterPrTag13 + WordsSplitterPrTag14, WordsSplitterPrTag15);
    ApplyBankConcat("entryid", WordsSplitterPrTag1 + WordsSplitterPrTag2 + WordsSplitterPrTag3 + WordsSplitterPrTag4 + WordsSplitterPrTag5 + WordsSplitterPrTag6 + WordsSplitterPrTag7 + WordsSplitterPrTag8 + WordsSplitterPrTag9 + WordsSplitterPrTag10 + WordsSplitterPrTag11 + WordsSplitterPrTag12 + WordsSplitterPrTag13 + WordsSplitterPrTag14 + WordsSplitterPrTag15, WordsSplitterPrTag16);
    ApplyBankConcat("entryid", WordsSplitterPrTag1 + WordsSplitterPrTag2 + WordsSplitterPrTag3 + WordsSplitterPrTag4 + WordsSplitterPrTag5 + WordsSplitterPrTag6 + WordsSplitterPrTag7 + WordsSplitterPrTag8 + WordsSplitterPrTag9 + WordsSplitterPrTag10 + WordsSplitterPrTag11 + WordsSplitterPrTag12 + WordsSplitterPrTag13 + WordsSplitterPrTag14 + WordsSplitterPrTag15 + WordsSplitterPrTag16, WordsSplitterPrTag17);
    ApplyBankConcat("entryid", WordsSplitterPrTag1 + WordsSplitterPrTag2 + WordsSplitterPrTag3 + WordsSplitterPrTag4 + WordsSplitterPrTag5 + WordsSplitterPrTag6 + WordsSplitterPrTag7 + WordsSplitterPrTag8 + WordsSplitterPrTag9 + WordsSplitterPrTag10 + WordsSplitterPrTag11 + WordsSplitterPrTag12 + WordsSplitterPrTag13 + WordsSplitterPrTag14 + WordsSplitterPrTag15 + WordsSplitterPrTag16 + WordsSplitterPrTag17, WordsSplitterPrTag18);
  }

  lemma WordsSplitterAny1KeepsEntryId()
    ensures ApplyBank("entry_id", WordsSplitterAny1) == "entry_id"
  {
    var cs := {'_', 'd', 'e', 'i', 'n', 'r', 't', 'y'};
    forall i | 0 <= i < |WordsSplitterAny1| ensures Avoids("entry_id", WordsSplitterAny1[i].pattern, cs) {
      if i == 0 { assert WordsSplitterAny1[0].pattern == "temporaryflags"; assert "temporaryflags"[13] == 's'; }
      else if i == 1 { assert WordsSplitterAny1[1].pattern == "errorinfo"; assert "errorinfo"[8] == 'o'; }
      else if i == 2 { assert WordsSplitterAny1[2].pattern == "msgsize"; assert "msgsize"[5] == 'z'; }
      else if i == 3 { assert WordsSplitterAny1[3].pattern == "attachlist"; assert "attachlist"[8] == 's'; }
      else if i == 4 { assert WordsSplitterAny1[4].pattern == "changenum"; assert "changenum"[8] == 'm'; }
      else if i == 5 { assert WordsSplitterAny1[5].pattern == "addrbook"; assert "addrbook"[7] == 'k'; }
    }
    assert "entry_id"[0] == 'e' && "entry_id"[1] == 'n' && "entry_id"[2] == 't' && "entry_id"[3] == 'r' && "entry_id"[4] == 'y' && "entry_id"[5] == '_' && "entry_id"[6] == 'i' && "entry_id"[7] == 'd';
    AvoidingRulesChangeNothing("entry_id", WordsSplitterAny1, cs);
  }

  lemma WordsSplitterAny2KeepsEntryId()
    ensures ApplyBank("entry_id", WordsSplitterAny2) == "entry_id"
  {
    var cs := {'_', 'd', 'e', 'i', 'n', 'r', 't', 'y'};
    forall i | 0 <= i < |WordsSplitterAny2| ensures Avoids("entry_id", WordsSplitterAny2[i].pattern, cs) {
      if i == 0 { assert WordsSplitterAny2[0].pattern == "rootdir"; assert "rootdir"[2] == 'o'; }
      else if i == 1 { assert WordsSplitterAny2[1].pattern == "msgclass"; assert "msgclass"[7] == 's'; }
      else if i == 2 { assert WordsSplitterAny2[2].pattern == "messageclass"; assert "messageclass"[11] == 's'; }
      else if i == 3 { assert WordsSplitterAny2[3].pattern == "mtsid"; assert "mtsid"[2] == 's'; }
      else if i == 4 { assert WordsSplitterAny2[4].pattern == "sentmail"; assert "sentmail"[7] == 'l'; }
    }
    assert "entry_id"[0] == 'e' && "entry_id"[1] == 'n' && "entry_id"[2] == 't' && "entry_id"[3] == 'r' && "entry_id"[4] == 'y' && "entry_id"[5] == '_' && "entry_id"[6] == 'i' && "entry_id"[7] == 'd';
    AvoidingRulesChangeNothing("entry_id", WordsSplitterAny2, cs);
  }

  lemma WordsSplitterAny3KeepsEntryId()
    ensures ApplyBank("entry_id", WordsSplitterAny3) == "entry_id"
  {
    var cs := {'_', 'd', 'e', 'i', 'n', 'r', 't', 'y'};
    forall i | 0 <= i < |WordsSplitterAny3| ensures Avoids("entry_id", WordsSplitterAny3[i].pattern, cs) {
      if i == 0 { assert WordsSplitterAny3[0].pattern == "to_do_"; assert "to_do_"[4] == 'o'; }
      else if i == 1 { assert WordsSplitterAny3[1].pattern == "subfolder"; assert "subfolder"[5] == 'l'; }
      else if i == 2 { assert WordsSplitterAny3[2].pattern == "rowid"; assert "rowid"[2] == 'w'; }
      else if i == 3 { assert WordsSplitterAny3[3].pattern == "recurrenceid"; assert "recurrenceid"[8] == 'c'; }
      else if i == 4 { assert WordsSplitterAny3[4].pattern == "readonly"; assert "readonly"[6] == 'l'; }
    }
    assert "entry_id"[0] == 'e' && "entry_id"[1] == 'n' && "entry_id"[2] == 't' && "entry_id"[3] == 'r' && "entry_id"[4] == 'y' && "entry_id"[5] == '_' && "entry_id"[6] == 'i' && "entry_id"[7] == 'd';
    AvoidingRulesChangeNothing("entry_id", WordsSplitterAny3, cs);
  }

  lemma WordsSplitterAny4KeepsEntryId()
    ensures ApplyBank("entry_id", WordsSplitterAny4) == "entry_id"
  {
    var cs := {'_', 'd', 'e', 'i', 'n', 'r', 't', 'y'};
    forall i | 0 <= i < |WordsSplitterAny4| ensures Avoids("entry_id", WordsSplitterAny4[i].pattern, cs) {
      if i == 0 { assert WordsSplitterAny4[0].pattern == "pathname"; assert "pathname"[6] == 'm'; }
      else if i == 1 { assert WordsSplitterAny4[1].pattern == "templateid"; assert "templateid"[5] == 'a'; }
      else if i == 2 { assert WordsSplitterAny4[2].pattern == "datatype"; assert "datatype"[6] == 'p'; }
      else if i == 3 { assert WordsSplitterAny4[3].pattern == "codepage"; assert "codepage"[6] == 'g'; }
      else if i == 4 { assert WordsSplitterAny4[4].pattern == "_replid"; assert "_replid"[4] == 'l'; }
    }
    assert "entry_id"[0] == 'e' && "entry_id"[1] == 'n' && "entry_id"[2] == 't' && "entry_id"[3] == 'r' && "entry_id"[4] == 'y' && "entry_id"[5] == '_' && "entry_id"[6] == 'i' && "entry_id"[7] == 'd';
    AvoidingRulesChangeNothing("entry_id", WordsSplitterAny4, cs);
  }

  lemma WordsSplitterAny5KeepsEntryId()
    ensures ApplyBank("entry_id", WordsSplitterAny5) == "entry_id"
  {
    var cs := {'_', 'd', 'e', 'i', 'n', 'r', 't', 'y'};
    forall i | 0 <= i < |WordsSplitterAny5| ensures Avoids("entry_id", WordsSplitterAny5[i].pattern, cs) {
      if i == 0 { assert WordsSplitterAny5[0].pattern == "webviewinfo"; assert "webviewinfo"[10] == 'o'; }
      else if i == 1 { assert WordsSplitterAny5[1].pattern == "webview"; assert "webview"[6] == 'w'; }
      else if i == 2 { assert WordsSplitterAny5[2].pattern == "mailuser"; assert "mailuser"[5] == 's'; }
      else if i == 3 { assert WordsSplitterAny5[3].pattern == "longterm"; assert "longterm"[7] == 'm'; }
      else if i == 4 { assert WordsSplitterAny5[4].pattern == "newsfeed"; assert "newsfeed"[4] == 'f'; }
    }
    assert "entry_id"[0] == 'e' && "entry_id"[1] == 'n' && "entry_id"[2] == 't' && "entry_id"[3] == 'r' && "entry_id"[4] == 'y' && "entry_id"[5] == '_' && "entry_id"[6] == 'i' && "entry_id"[7] == 'd';
    AvoidingRulesChangeNothing("entry_id", WordsSplitterAny5, cs);
  }

  /** No common word-splitter rule occurs in `entry_id`. */
  lemma WordsSplitterAnyKeepsEntryId()
    ensures ApplyBank("entry_id", WordsSplitterAny) == "entry_id"
  {
    WordsSplitterAny1KeepsEntryId();
    WordsSplitterAny2KeepsEntryId();
    WordsSplitterAny3KeepsEntryId();
    WordsSplitterAny4KeepsEntryId();
    WordsSplitterAny5KeepsEntryId();
    ApplyBankConcat("entry_id", WordsSplitterAny1, WordsSplitterAny2);
    ApplyBankConcat("entry_id", WordsSplitterAny1 + WordsSplitterAny2, WordsSplitterAny3);
    ApplyBankConcat("entry_id", WordsSplitterAny1 + WordsSplitterAny2 + WordsSplitterAny3, WordsSplitterAny4);
    ApplyBankConcat("entry_id", WordsSplitterAny1 + WordsSplitterAny2 + WordsSplitterAny3 + WordsSplitterAny4, WordsSplitterAny5);
  }

  lemma AbbreviationsAny1KeepsEntryId()
    ensures ApplyBank("entry_id", AbbreviationsAny1) == "entry_id"
  {
    var cs := {'_', 'd', 'e', 'i', 'n', 'r', 't', 'y'};
    forall i | 0 <= i < |AbbreviationsAny1| ensures Avoids("entry_id", AbbreviationsAny1[i].pattern, cs) {
      if i == 0 { assert AbbreviationsAny1[0].pattern == "appointment"; assert "appointment"[7] == 'm'; }
      else if i == 1 { assert AbbreviationsAny1[1].pattern == "certificate"; assert "certificate"[8] == 'a'; }
      else if i == 2 { assert AbbreviationsAny1[2].pattern == "recipient_"; assert "recipient_"[4] == 'p'; }
    }
    assert "entry_id"[0] == 'e' && "entry_id"[1] == 'n' && "entry_id"[2] == 't' && "entry_id"[3] == 'r' && "entry_id"[4] == 'y' && "entry_id"[5] == '_' && "entry_id"[6] == 'i' && "entry_id"[7] == 'd';
    AvoidingRulesChangeNothing("entry_id", AbbreviationsAny1, cs);
  }

  lemma AbbreviationsAny2KeepsEntryId()
    ensures ApplyBank("entry_id", AbbreviationsAny2) == "entry_id"
  {
    var cs := {'_', 'd', 'e', 'i', 'n', 'r', 't', 'y'};
    forall i | 0 <= i < |AbbreviationsAny2| ensures Avoids("entry_id", AbbreviationsAny2[i].pattern, cs) {
      if i == 0 { assert AbbreviationsAny2[0].pattern == "access_control_list_"; assert "access_control_list_"[17] == 's'; }
      else if i == 1 { assert AbbreviationsAny2[1].pattern == "hierarchical"; assert "hierarchical"[11] == 'l'; }
      else if i == 2 { assert AbbreviationsAny2[2].pattern == "address"; assert "address"[6] == 's'; }
    }
    assert "entry_id"[0] == 'e' && "entry_id"[1] == 'n' && "entry_id"[2] == 't' && "entry_id"[3] == 'r' && "entry_id"[4] == 'y' && "entry_id"[5] == '_' && "entry_id"[6] == 'i' && "entry_id"[7] == 'd';
    AvoidingRulesChangeNothing("entry_id", AbbreviationsAny2, cs);
  }

  lemma AbbreviationsAny3KeepsEntryId()
    ensures ApplyBank("entry_id", AbbreviationsAny3) == "entry_id"
  {
    var cs := {'_', 'd', 'e', 'i', 'n', 'r', 't', 'y'};
    forall i | 0 <= i < |AbbreviationsAny3| ensures Avoids("entry_id", AbbreviationsAny3[i].pattern, cs) {
      if i == 0 { assert AbbreviationsAny3[0].pattern == "message"; assert "message"[5] == 'g'; }
      else if i == 1 { assert AbbreviationsAny3[1].pattern == "hasattach"; assert "hasattach"[8] == 'h'; }
      else if i == 2 { assert AbbreviationsAny3[2].pattern == "_extended"; assert "_extended"[2] == 'x'; }
    }
    assert "entry_id"[0] == 'e' && "entry_id"[1] == 'n' && "entry_id"[2] == 't' && "entry_id"[3] == 'r' && "entry_id"[4] == 'y' && "entry_id"[5] == '_' && "entry_id"[6] == 'i' && "entry_id"[7] == 'd';
    AvoidingRulesChangeNothing("entry_id", AbbreviationsAny3, cs);
  }

  lemma AbbreviationsAny4KeepsEntryId()
    ensures ApplyBank("entry_id", AbbreviationsAny4) == "entry_id"
  {
    var cs := {'_', 'd', 'e', 'i', 'n', 'r', 't', 'y'};
    forall i | 0 <= i < |AbbreviationsAny4| ensures Avoids("entry_id", AbbreviationsAny4[i].pattern, cs) {
      if i == 0 { assert AbbreviationsAny4[0].pattern == "_eid"; assert NoHeadStart("entry_id", "_eid"); }
      else if i == 1 { assert AbbreviationsAny4[1].pattern == "_telephone_"; assert "_telephone_"[7] == 'o'; }
      else if i == 2 { assert AbbreviationsAny4[2].pattern == "received_"; assert "received_"[5] == 'v'; }
    }
    assert "entry_id"[0] == 'e' && "entry_id"[1] == 'n' && "entry_id"[2] == 't' && "entry_id"[3] == 'r' && "entry_id"[4] == 'y' && "entry_id"[5] == '_' && "entry_id"[6] == 'i' && "entry_id"[7] == 'd';
    AvoidingRulesChangeNothing("entry_id", AbbreviationsAny4, cs);
  }

  lemma AbbreviationsAny5KeepsEntryId()
    ensures ApplyBank("entry_id", AbbreviationsAny5) == "entry_id"
  {
    var cs := {'_', 'd', 'e', 'i', 'n', 'r', 't', 'y'};
    forall i | 0 <= i < |AbbreviationsAny5| ensures Avoids("entry_id", AbbreviationsAny5[i].pattern, cs) {
      if i == 0 { assert AbbreviationsAny5[0].pattern == "number"; assert "number"[3] == 'b'; }
      else if i == 1 { assert AbbreviationsAny5[1].pattern == "_object_"; assert "_object_"[5] == 'c'; }
      else if i == 2 { assert AbbreviationsAny5[2].pattern == "_message_"; assert "_message_"[6] == 'g'; }
    }
    assert "entry_id"[0] == 'e' && "entry_id"[1] == 'n' && "entry_id"[2] == 't' && "entry_id"[3] == 'r' && "entry_id"[4] == 'y' && "entry_id"[5] == '_' && "entry_id"[6] == 'i' && "entry_id"[7] == 'd';
    AvoidingRulesChangeNothing("entry_id", AbbreviationsAny5, cs);
  }

  lemma AbbreviationsAny6KeepsEntryId()
    ensures ApplyBank("entry_id", AbbreviationsAny6) == "entry_id"
  {
    var cs := {'_', 'd', 'e', 'i', 'n', 'r', 't', 'y'};
    forall i | 0 <= i < |AbbreviationsAny6| ensures Avoids("entry_id", AbbreviationsAny6[i].pattern, cs) {
      if i == 0 { assert AbbreviationsAny6[0].pattern == "internet"; assert NoHeadStart("entry_id", "internet"); }
      else if i == 1 { assert AbbreviationsAny6[1].pattern == "acct"; assert "acct"[2] == 'c'; }
      else if i == 2 { assert AbbreviationsAny6[2].pattern == "maximum"; assert "maximum"[6] == 'm'; }
    }
    assert "entry_id"[0] == 'e' && "entry_id"[1] == 'n' && "entry_id"[2] == 't' && "entry_id"[3] == 'r' && "entry_id"[4] == 'y' && "entry_id"[5] == '_' && "entry_id"[6] == 'i' && "entry_id"[7] == 'd';
    AvoidingRulesChangeNothing("entry_id", AbbreviationsAny6, cs);
  }

  lemma AbbreviationsAny7KeepsEntryId()
    ensures ApplyBank("entry_id", AbbreviationsAny7) == "entry_id"
  {
    var cs := {'_', 'd', 'e', 'i', 'n', 'r', 't', 'y'};
    forall i | 0 <= i < |AbbreviationsAny7| ensures Avoids("entry_id", AbbreviationsAny7[i].pattern, cs) {
      if i == 0 { assert AbbreviationsAny7[0].pattern == "minimum"; assert "minimum"[6] == 'm'; }
      else if i == 1 { assert AbbreviationsAny7[1].pattern == "transmitable"; assert "transmitable"[10] == 'l'; }
      else if i == 2 { assert AbbreviationsAny7[2].pattern == "_binary"; assert "_binary"[4] == 'a'; }
    }
    assert "entry_id"[0] == 'e' && "entry_id"[1] == 'n' && "entry_id"[2] == 't' && "entry_id"[3] == 'r' && "entry_id"[4] == 'y' && "entry_id"[5] == '_' && "entry_id"[6] == 'i' && "entry_id"[7] == 'd';
    AvoidingRulesChangeNothing("entry_id", AbbreviationsAny7, cs);
  }

  lemma AbbreviationsAny8KeepsEntryId()
    ensures ApplyBank("entry_id", AbbreviationsAny8) == "entry_id"
  {
    var cs := {'_', 'd', 'e', 'i', 'n', 'r', 't', 'y'};
    forall i | 0 <= i < |AbbreviationsAny8| ensures Avoids("entry_id", AbbreviationsAny8[i].pattern, cs) {
      if i == 0 { assert AbbreviationsAny8[0].pattern == "_mid_"; assert "_mid_"[1] == 'm'; }
      else if i == 1 { assert AbbreviationsAny8[1].pattern == "_cpid"; assert "_cpid"[2] == 'p'; }
      else if i == 2 { assert AbbreviationsAny8[2].pattern == "dam_"; assert "dam_"[2] == 'm'; }
    }
    assert "entry_id"[0] == 'e' && "entry_id"[1] == 'n' && "entry_id"[2] == 't' && "entry_id"[3] == 'r' && "entry_id"[4] == 'y' && "entry_id"[5] == '_' && "entry_id"[6] == 'i' && "entry_id"[7] == 'd';
    AvoidingRulesChangeNothing("entry_id", AbbreviationsAny8, cs);
  }

  lemma AbbreviationsAny9KeepsEntryId()
    ensures ApplyBank("entry_id", AbbreviationsAny9) == "entry_id"
  {
    var cs := {'_', 'd', 'e', 'i', 'n', 'r', 't', 'y'};
    forall i | 0 <= i < |AbbreviationsAny9| ensures Avoids("entry_id", AbbreviationsAny9[i].pattern, cs) {
      if i == 0 { assert AbbreviationsAny9[0].pattern == "attribute"; assert "attribute"[6] == 'u'; }
      else if i == 1 { assert AbbreviationsAny9[1].pattern == "schedule_"; assert "schedule_"[6] == 'l'; }
    }
    assert "entry_id"[0] == 'e' && "entry_id"[1] == 'n' && "entry_id"[2] == 't' && "entry_id"[3] == 'r' && "entry_id"[4] == 'y' && "entry_id"[5] == '_' && "entry_id"[6] == 'i' && "entry_id"[7] == 'd';
    AvoidingRulesChangeNothing("entry_id", AbbreviationsAny9, cs);
  }

  /** No common abbreviation rule occurs in `entry_id`. */
  lemma AbbreviationsAnyKeepsEntryId()
    ensures ApplyBank("entry_id", AbbreviationsAny) == "entry_id"
  {
    AbbreviationsAny1KeepsEntryId();
    AbbreviationsAny2KeepsEntryId();
    AbbreviationsAny3KeepsEntryId();
    AbbreviationsAny4KeepsEntryId();
    AbbreviationsAny5KeepsEntryId();
    AbbreviationsAny6KeepsEntryId();
    AbbreviationsAny7KeepsEntryId();
    AbbreviationsAny8KeepsEntryId();
    AbbreviationsAny9KeepsEntryId();
    ApplyBankConcat("entry_id", AbbreviationsAny1, AbbreviationsAny2);
    ApplyBankConcat("entry_id", AbbreviationsAny1 + AbbreviationsAny2, AbbreviationsAny3);
    ApplyBankConcat("entry_id", AbbreviationsAny1 + AbbreviationsAny2 + AbbreviationsAny3, AbbreviationsAny4);
    ApplyBankConcat("entry_id", AbbreviationsAny1 + AbbreviationsAny2 + AbbreviationsAny3 + AbbreviationsAny4, AbbreviationsAny5);
    ApplyBankConcat("entry_id", AbbreviationsAny1 + AbbreviationsAny2 + AbbreviationsAny3 + AbbreviationsAny4 + AbbreviationsAny5, AbbreviationsAny6);
    ApplyBankConcat("entry_id", AbbreviationsAny1 + AbbreviationsAny2 + AbbreviationsAny3 + AbbreviationsAny4 + AbbreviationsAny5 + AbbreviationsAny6, AbbreviationsAny7);
    ApplyBankConcat("entry_id", AbbreviationsAny1 + AbbreviationsAny2 + AbbreviationsAny3 + AbbreviationsAny4 + AbbreviationsAny5 + AbbreviationsAny6 + AbbreviationsAny7, AbbreviationsAny8);
    ApplyBankConcat("entry_id", AbbreviationsAny1 + AbbreviationsAny2 + AbbreviationsAny3 + AbbreviationsAny4 + AbbreviationsAny5 + AbbreviationsAny6 + AbbreviationsAny7 + AbbreviationsAny8, AbbreviationsAny9);
  }
  /** The classifier takes `PR_` off `PR_ENTRYID`. */
  lemma ClassifyPrEntryId()
    ensures Classify("PR_ENTRYID") == (PrTag, "ENTRYID")
  {
    var n := "PR_ENTRYID";
    assert StartsWith(n, PrefixTable[2].1) by {
      assert n[..3] == "PR_";
    }
    ClassifyByAnyMatchingPrefix(n, 2);
    assert n[3..] == "ENTRYID";
  }

  lemma WordsSplitterPrTagBank()
    ensures ScopedBank(WordsSplitterFilters, PrTag) == WordsSplitterPrTag
    ensures WordsSplitterFilters.any == WordsSplitterAny
  {
  }

  /** The word-splitter bundle turns `entryid` into `entry_id`. */
  lemma WordsSplitterFiltersEntryid()
    ensures ProcessFilterBundle(PrTag, "entryid", WordsSplitterFilters, NoSegmentation) == Some("entry_id")
  {
    WordsSplitterPrTagSplitsEntryid();
    WordsSplitterAnyKeepsEntryId();
    BundleWithoutFixer(PrTag, "entryid", WordsSplitterFilters, NoSegmentation);
    WordsSplitterPrTagBank();
    ApplyBankConcat("entryid", WordsSplitterPrTag, WordsSplitterAny);
  }

  lemma EntryIdHasNoDoubleUnderscore()
    ensures NoDoubleUnderscore("entry_id")
  {
  }

  /** `entry_id` has no `__`, so the underscore collapse keeps it. */
  lemma CollapseKeepsEntryId()
    ensures FixMultipleUnderscores("entry_id") == "entry_id"
  {
    EntryIdHasNoDoubleUnderscore();
    FixMultipleUnderscoresFixpoint("entry_id");
  }

  /** `entry_id` has no `_` at either end, so the trimming keeps it. */
  lemma TrimKeepsEntryId()
    ensures Trimmed("entry_id") == Some("entry_id")
  {
  }

  /** `splitJoinedWords` on `entryid` gives `entry_id`. */
  lemma SplitJoinedWordsEntryid()
    ensures SplitJoinedWords(PrTag, "entryid") == Some("entry_id")
  {
    WordsSplitterFiltersEntryid();
    CollapseKeepsEntryId();
    TrimKeepsEntryId();
  }

  /** `attachNumber` finds no digit group in `entryid`. */
  lemma AttachNumberKeepsEntryid()
    ensures AttachNumber("entryid") == "entryid"
  {
    assert RunStart("entryid", 7, IsDigit) == 7;
  }

  /** The middle fixer of `convertName` on `entryid`: `attachNumber` finds
      no digits, lower-casing changes nothing, and the words are split. */
  lemma MiddleFixerEntryid()
    ensures MiddleFixer(PrTag, "entryid") == Some("entry_id")
  {
    AttachNumberKeepsEntryid();
    LowerKeepsEntryid();
    SplitJoinedWordsEntryid();
  }

  lemma LowerEntryId()
    ensures Lower("ENTRYID") == "entryid"
  {
  }

  lemma LowerKeepsEntryid()
    ensures Lower("entryid") == "entryid"
  {
  }

  /** `convertName("PR_ENTRYID") == "entry_id"`, for any
      `inflection.underscore`. */
  lemma ConvertNameEntryId(underscore: string -> string)
    ensures ConvertName("PR_ENTRYID", underscore) == Some("entry_id")
  {
    ClassifyPrEntryId();
    LowerEntryId();
    AbbreviationsPrTagKeepsEntryid();
    MiddleFixerEntryid();
    AbbreviationsAnyKeepsEntryId();
  }
}
