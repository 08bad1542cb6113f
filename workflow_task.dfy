// Workflow task notifications: which notify controls fire for a task (on
// its status, on a status change, or when it waits for approval), how the
// task creator is resolved for mail, the status, icon, colour and job-type
// tables of the message templates, and the code summary shown for a build
// job's primary repository.

module WorkflowTask {
  import opened Common
  import opened Models

  // ---------------------------------------------------------------------
  // Notify controls

  datatype WebHookType = DingDing | Feishu | Mail | Webhook | WeChat | OtherWebHook(raw: string)

  datatype UserType = TaskCreatorUser | PlainUser | OtherUserType(raw: string)

  datatype MailUser = MailUser(userType: UserType, userID: string, userName: string)

  /** A notification target of a workflow and the statuses it wants to hear about. */
  datatype NotifyCtl = NotifyCtl(
    enabled: bool,
    notifyTypes: seq<Status>,
    webHookType: WebHookType,
    mailUsers: seq<MailUser>)

  /** The task creator as the user service knows them. */
  datatype UserInfo = UserInfo(uid: string, name: string)

  /** A task as the notifications see it. */
  datatype WorkflowTask = WorkflowTask(
    taskID: int,
    workflowName: string,
    status: Status,
    taskCreatorID: string,
    notifyCtls: seq<NotifyCtl>)

  /** A notification handed to the sender: the control's position and the mail users it goes to. */
  datatype Sent = Sent(index: nat, mailUsers: seq<MailUser>)

  // ---------------------------------------------------------------------
  // When a task notification fires

  /**
   * The status counts as changed when the previous task could not be found,
   * or when it was found with another status and the task is not running;
   * a task that has just been created never counts as changed.
   */
  function StatusChanged(status: Status, previous: Option<Status>): bool
  {
    status != Created
    && (previous.None? || (previous.value != status && status != Running))
  }

  /** A control fires when it is enabled and wants the task's status, or wants changes and the status changed. */
  predicate Fires(n: NotifyCtl, status: Status, changed: bool)
  {
    n.enabled && (status in n.notifyTypes || (changed && Changed in n.notifyTypes))
  }

  /** The positions of the controls that fire, in order. */
  function FiringIndices(ctls: seq<NotifyCtl>, status: Status, changed: bool): (r: seq<nat>)
    ensures forall k :: 0 <= k < |r| ==> r[k] < |ctls| && Fires(ctls[r[k]], status, changed)
    ensures forall k, l :: 0 <= k < l < |r| ==> r[k] < r[l]
    ensures forall i :: 0 <= i < |ctls| && Fires(ctls[i], status, changed) ==> i in r
  {
    if |ctls| == 0 then []
    else
      var n := |ctls| - 1;
      FiringIndices(ctls[..n], status, changed) + (if Fires(ctls[n], status, changed) then [n] else [])
  }

  lemma FiringIndicesSnoc(ctls: seq<NotifyCtl>, i: nat, status: Status, changed: bool)
    requires i < |ctls|
    ensures FiringIndices(ctls[..i + 1], status, changed)
         == FiringIndices(ctls[..i], status, changed) + (if Fires(ctls[i], status, changed) then [i] else [])
  {
    assert ctls[..i + 1][..i] == ctls[..i];
  }

  /**
   * The changed flag as the source computes it, by successive assignment:
   * set when the lookup failed or the found task had another status (unless
   * running), then cleared for a created task.
   */
  method ComputeStatusChanged(status: Status, previous: Option<Status>) returns (changed: bool)
    ensures changed == StatusChanged(status, previous)
  {
    changed := false;
    if previous.None? {
      changed := true;
    }
    if previous.Some? && status != previous.value && status != Running {
      changed := true;
    }
    if status == Created {
      changed := false;
    }
  }

  /**
   * The rule in both directions: the status changed exactly when the task is
   * not just created and either no previous task was found or the previous
   * task ended differently while this one is not running.
   */
  lemma StatusChangedCases(status: Status, previous: Option<Status>)
    ensures status == Created ==> !StatusChanged(status, previous)
    ensures status != Created && previous.None? ==> StatusChanged(status, previous)
    ensures status == Running && previous.Some? ==> !StatusChanged(status, previous)
    ensures previous == Some(status) ==> !StatusChanged(status, previous)
    ensures status != Created && status != Running && previous.Some? && previous.value != status
            ==> StatusChanged(status, previous)
  {
  }

  /** A control that does not want the status fires only on a change it asked for. */
  lemma FiresOnlyOnWantedStatusOrChange(n: NotifyCtl, status: Status, previous: Option<Status>)
    requires status !in n.notifyTypes
    ensures Fires(n, status, StatusChanged(status, previous))
        <==> n.enabled && Changed in n.notifyTypes && status != Created
             && (previous.None? || (previous.value != status && status != Running))
  {
  }

  // ---------------------------------------------------------------------
  // The task creator among the mail users

  /** The position of the first mail user standing for the task creator; |users| if none does. */
  function FirstCreator(users: seq<MailUser>): (k: nat)
    ensures k <= |users|
    ensures forall i :: 0 <= i < k ==> users[i].userType != TaskCreatorUser
    ensures k < |users| ==> users[k].userType == TaskCreatorUser
  {
    if |users| == 0 then 0
    else if users[0].userType == TaskCreatorUser then 0
    else 1 + FirstCreator(users[1..])
  }

  /**
   * The mail users a task notification goes to: the first task-creator entry
   * becomes the creator's own user entry, when the creator could be looked up.
   */
  function ResolvedCreator(users: seq<MailUser>, creator: Result<UserInfo>): seq<MailUser>
  {
    var k := FirstCreator(users);
    if k == |users| || creator.Err? then users
    else users[k := MailUser(PlainUser, creator.value.uid, creator.value.name)]
  }

  /**
   * The mail users an approval notification goes to: the creator's user entry
   * is added after the others when some entry stands for the task creator.
   */
  function AddedCreator(users: seq<MailUser>, creator: Result<UserInfo>): seq<MailUser>
  {
    var k := FirstCreator(users);
    if k == |users| || creator.Err? then users
    else users + [MailUser(PlainUser, creator.value.uid, creator.value.name)]
  }

  /**
   * Resolving the creator changes at most one entry, the first task-creator
   * one, and leaves the list's length; adding the creator keeps every entry
   * and adds at most one.
   */
  lemma CreatorResolution(users: seq<MailUser>, creator: Result<UserInfo>)
    ensures var r := ResolvedCreator(users, creator);
      |r| == |users|
      && (forall i :: 0 <= i < |users| && i != FirstCreator(users) ==> r[i] == users[i])
      && (creator.Ok? && FirstCreator(users) < |users| ==>
            r[FirstCreator(users)] == MailUser(PlainUser, creator.value.uid, creator.value.name))
    ensures var a := AddedCreator(users, creator);
      a[..|users|] == users
      && |a| == |users| + (if creator.Ok? && FirstCreator(users) < |users| then 1 else 0)
  {
  }

  /** Find the first task-creator entry and resolve it, as the mail branch does. */
  method ResolveCreator(users: seq<MailUser>, creator: Result<UserInfo>, append: bool) returns (r: seq<MailUser>)
    ensures r == if append then AddedCreator(users, creator) else ResolvedCreator(users, creator)
  {
    r := users;
    var i := 0;
    while i < |users|
      invariant 0 <= i <= |users| && r == users
      invariant forall k :: 0 <= k < i ==> users[k].userType != TaskCreatorUser
    {
      if users[i].userType == TaskCreatorUser {
        if creator.Err? {
          break;
        }
        var u := MailUser(PlainUser, creator.value.uid, creator.value.name);
        if append {
          r := users + [u];
        } else {
          r := users[i := u];
        }
        break;
      }
      i := i + 1;
    }
  }

  /** The mail users a fired control sends to. */
  function Recipients(n: NotifyCtl, task: WorkflowTask, creator: Result<UserInfo>, approve: bool): seq<MailUser>
  {
    if n.webHookType == Mail && task.taskCreatorID != "" then
      (if approve then AddedCreator(n.mailUsers, creator) else ResolvedCreator(n.mailUsers, creator))
    else n.mailUsers
  }

  const ContentErrorPrefix := "failed to get notification content, err: "

  /**
   * One round of notifications: the status the controls are matched against,
   * whether it changed, the task, the creator's lookup, which controls'
   * content fails to render (by position), and whether this is an approval.
   */
  datatype Round = Round(
    status: Status,
    changed: bool,
    task: WorkflowTask,
    creator: Result<UserInfo>,
    content: nat -> Option<string>,
    approve: bool)

  /** The notification control `n` at position `i` gets in a round. */
  function SentTo(n: NotifyCtl, i: nat, rd: Round): Sent
  {
    Sent(i, Recipients(n, rd.task, rd.creator, rd.approve))
  }

  /**
   * Notifying the controls in order: each one that fires gets a notification
   * unless its content fails to render, which ends the run with that error.
   */
  function Notify(ctls: seq<NotifyCtl>, rd: Round): Run<Sent>
  {
    if |ctls| == 0 then Run([], None)
    else
      var n := |ctls| - 1;
      var prev := Notify(ctls[..n], rd);
      if prev.err.Some? || !Fires(ctls[n], rd.status, rd.changed) then prev
      else if rd.content(n).Some? then Run(prev.done, Some(ContentErrorPrefix + rd.content(n).value))
      else Run(prev.done + [SentTo(ctls[n], n, rd)], None)
  }

  /** A run notifies the controls that fire in order, as far as it got. */
  predicate NotifiedInOrder(ctls: seq<NotifyCtl>, done: seq<Sent>, fired: seq<nat>, rd: Round)
    requires forall k :: 0 <= k < |fired| ==> fired[k] < |ctls|
  {
    |done| <= |fired|
    && forall k :: 0 <= k < |done| ==> done[k] == SentTo(ctls[fired[k]], fired[k], rd)
  }

  /** What a run over a prefix notified, it notified over the whole sequence. */
  lemma NotifiedInOrderGrows(ctls: seq<NotifyCtl>, n: nat, done: seq<Sent>, pf: seq<nat>, fired: seq<nat>, rd: Round)
    requires n <= |ctls| && |pf| <= |fired| && fired[..|pf|] == pf
    requires forall k :: 0 <= k < |pf| ==> pf[k] < n
    requires forall k :: 0 <= k < |fired| ==> fired[k] < |ctls|
    requires NotifiedInOrder(ctls[..n], done, pf, rd)
    ensures NotifiedInOrder(ctls, done, fired, rd)
  {
    forall k | 0 <= k < |done|
      ensures done[k] == SentTo(ctls[fired[k]], fired[k], rd)
    {
      assert fired[k] == pf[k];
      assert ctls[..n][pf[k]] == ctls[pf[k]];
    }
  }

  /**
   * Exactly the controls that fire are notified, in order and each with its
   * recipients, unless one's content fails to render: then the run stopped at
   * that control, with its content error, after notifying those before it.
   */
  lemma {:induction false} NotifyFiring(ctls: seq<NotifyCtl>, rd: Round)
    ensures var r := Notify(ctls, rd);
      var fired := FiringIndices(ctls, rd.status, rd.changed);
      NotifiedInOrder(ctls, r.done, fired, rd)
      && (r.err.None? <==> |r.done| == |fired|)
      && (r.err.Some? ==>
            rd.content(fired[|r.done|]).Some?
            && r.err == Some(ContentErrorPrefix + rd.content(fired[|r.done|]).value))
    decreases |ctls|
  {
    if |ctls| > 0 {
      var n := |ctls| - 1;
      NotifyFiring(ctls[..n], rd);
      var prev := Notify(ctls[..n], rd);
      var r := Notify(ctls, rd);
      var fired := FiringIndices(ctls, rd.status, rd.changed);
      var pf := FiringIndices(ctls[..n], rd.status, rd.changed);
      assert fired[..|pf|] == pf;
      NotifiedInOrderGrows(ctls, n, prev.done, pf, fired, rd);
      if prev.err.Some? {
        assert r == prev;
        assert fired[|r.done|] == pf[|r.done|];
      } else if !Fires(ctls[n], rd.status, rd.changed) {
        assert r == prev && fired == pf;
      } else {
        assert fired == pf + [n];
        assert fired[|prev.done|] == n;
      }
    }
  }

  /** Once a run has stopped, later controls change nothing. */
  lemma {:induction false} NotifyStopped(ctls: seq<NotifyCtl>, i: nat, rd: Round)
    requires i <= |ctls| && Notify(ctls[..i], rd).err.Some?
    ensures Notify(ctls, rd) == Notify(ctls[..i], rd)
    decreases |ctls| - i
  {
    if i < |ctls| {
      assert ctls[..i + 1][..i] == ctls[..i];
      NotifyStopped(ctls, i + 1, rd);
    } else {
      assert ctls[..i] == ctls;
    }
  }

  /**
   * SendWorkflowTaskNotifications: nothing is sent for a task without notify
   * controls or without a positive ID; otherwise the controls that fire get a
   * notification, in order, until one's content fails to render.
   * `previous` is the previous task's status, None when it was not found;
   * `content` says which controls' content fails; `creator` is the task
   * creator's lookup.
   */
  method SendWorkflowTaskNotifications(task: WorkflowTask, previous: Option<Status>,
                                       creator: Result<UserInfo>, content: nat -> Option<string>)
    returns (sent: seq<Sent>, err: Option<string>)
    ensures |task.notifyCtls| == 0 || task.taskID <= 0 ==> sent == [] && err.None?
    ensures |task.notifyCtls| > 0 && task.taskID > 0 ==>
      Run(sent, err)
      == Notify(task.notifyCtls, Round(task.status, StatusChanged(task.status, previous), task, creator, content, false))
  {
    if |task.notifyCtls| == 0 || task.taskID <= 0 {
      return [], None;
    }
    var changed := ComputeStatusChanged(task.status, previous);
    sent, err := SendFired(task.notifyCtls, Round(task.status, changed, task, creator, content, false));
  }

  /** The notification for one control that fires. */
  method SendOne(n: NotifyCtl, i: nat, rd: Round) returns (s: Sent)
    ensures s == SentTo(n, i, rd)
  {
    var users := n.mailUsers;
    if n.webHookType == Mail && rd.task.taskCreatorID != "" {
      users := ResolveCreator(n.mailUsers, rd.creator, rd.approve);
    }
    s := Sent(i, users);
  }

  /** Notify, in order, the controls that fire for the round's status. */
  method SendFired(ctls: seq<NotifyCtl>, rd: Round) returns (sent: seq<Sent>, err: Option<string>)
    ensures Run(sent, err) == Notify(ctls, rd)
  {
    sent := [];
    var i := 0;
    while i < |ctls|
      invariant 0 <= i <= |ctls|
      invariant Run(sent, None) == Notify(ctls[..i], rd)
    {
      assert ctls[..i + 1][..i] == ctls[..i];
      var n := ctls[i];
      if n.enabled && (rd.status in n.notifyTypes || (rd.changed && Changed in n.notifyTypes)) {
        var c := rd.content(i);
        if c.Some? {
          NotifyStopped(ctls, i + 1, rd);
          return sent, Some(ContentErrorPrefix + c.value);
        }
        var one := SendOne(n, i, rd);
        sent := sent + [one];
      }
      i := i + 1;
    }
    assert ctls[..i] == ctls;
    err := None;
  }

  /** An approval notification goes to the enabled controls that want WaitingApprove. */
  predicate FiresForApproval(n: NotifyCtl)
  {
    n.enabled && WaitingApprove in n.notifyTypes
  }

  /** The approval rule is the firing rule for the WaitingApprove status with no change. */
  lemma ApprovalFiresAsWaitingApprove(n: NotifyCtl)
    ensures FiresForApproval(n) <==> Fires(n, WaitingApprove, false)
  {
  }

  const WorkflowLookupPrefix := "failed to find workflowv4, err: "
  const TaskLookupPrefix := "failed to find workflowv4 task, err: "

  /**
   * SendWorkflowTaskApproveNotifications: after looking up the workflow's
   * notify controls and the task, notify in order the controls that want
   * WaitingApprove, the task creator added to the mail users.
   */
  method SendWorkflowTaskApproveNotifications(workflowCtls: Result<seq<NotifyCtl>>, task: Result<WorkflowTask>,
                                              creator: Result<UserInfo>, content: nat -> Option<string>)
    returns (sent: seq<Sent>, err: Option<string>)
    ensures workflowCtls.Err? ==> sent == [] && err == Some(WorkflowLookupPrefix + workflowCtls.msg)
    ensures workflowCtls.Ok? && task.Err? ==> sent == [] && err == Some(TaskLookupPrefix + task.msg)
    ensures workflowCtls.Ok? && task.Ok? ==>
      Run(sent, err) == Notify(workflowCtls.value, Round(WaitingApprove, false, task.value, creator, content, true))
  {
    if workflowCtls.Err? {
      return [], Some(WorkflowLookupPrefix + workflowCtls.msg);
    }
    if task.Err? {
      return [], Some(TaskLookupPrefix + task.msg);
    }
    sent, err := SendFired(workflowCtls.value, Round(WaitingApprove, false, task.value, creator, content, true));
  }

  // ---------------------------------------------------------------------
  // Template tables

  /** taskStatus for a whole task. */
  function TaskStatusText(s: Status): string
  {
    if s == Passed then "执行成功"
    else if s == Cancelled then "执行取消"
    else if s == Timeout then "执行超时"
    else if s == Reject then "执行被拒绝"
    else if s == Created then "开始执行"
    else "执行失败"
  }

  /** taskStatus for a job: no text for a created job, but one for a job that never ran. */
  function JobStatusText(s: Status): string
  {
    if s == Passed then "执行成功"
    else if s == Cancelled then "执行取消"
    else if s == Timeout then "执行超时"
    else if s == Reject then "执行被拒绝"
    else if s == NotRun then "未执行"
    else "执行失败"
  }

  /**
   * The two status tables agree except on Created, which only the task table
   * names, and on the empty status, which only the job table names; every
   * other unnamed status reads as a failure.
   */
  lemma StatusTextsAgree(s: Status)
    ensures s != Created && s != NotRun ==> TaskStatusText(s) == JobStatusText(s)
    ensures TaskStatusText(Created) == "开始执行" && JobStatusText(Created) == "执行失败"
    ensures TaskStatusText(NotRun) == "执行失败" && JobStatusText(NotRun) == "未执行"
    ensures s !in {Passed, Cancelled, Timeout, Reject, Created} ==> TaskStatusText(s) == "执行失败"
    ensures s !in {Passed, Cancelled, Timeout, Reject, NotRun} ==> JobStatusText(s) == "执行失败"
  {
  }

  datatype MarkdownColor = ColorInfo | ColorComment | ColorWarning

  function Icon(s: Status): string
  {
    if s == Passed || s == Created then "👍"
    else if s == Failed then "❌"
    else "⚠️"
  }

  function Color(s: Status): MarkdownColor
  {
    if s == Passed || s == Created then ColorInfo
    else if s == Timeout || s == Cancelled then ColorComment
    else if s == Failed then ColorWarning
    else ColorComment
  }

  /**
   * Icon and colour tell the same story: a thumbs-up exactly for the info
   * colour (passed or created), a cross exactly for the warning colour
   * (failed), and a warning sign for everything else, shown in comment colour.
   */
  lemma IconMatchesColor(s: Status)
    ensures Icon(s) == "👍" <==> Color(s) == ColorInfo
    ensures Icon(s) == "❌" <==> Color(s) == ColorWarning
    ensures Icon(s) == "⚠️" <==> Color(s) == ColorComment
    ensures Color(s) == ColorInfo <==> s == Passed || s == Created
    ensures Color(s) == ColorWarning <==> s == Failed
  {
  }

  /** The label a job type is shown with; an unknown type is shown as its raw name. */
  function JobTypeLabel(t: JobType): string
  {
    match t
    case JobZadigBuild => "构建"
    case JobZadigDeploy => "部署"
    case JobZadigHelmDeploy => "helm部署"
    case JobCustomDeploy => "自定义部署"
    case JobFreestyle => "通用任务"
    case JobPlugin => "自定义任务"
    case JobZadigTesting => "测试"
    case JobZadigScanning => "代码扫描"
    case JobZadigDistributeImage => "镜像分发"
    case JobK8sBlueGreenDeploy => "蓝绿部署"
    case JobK8sBlueGreenRelease => "蓝绿发布"
    case JobK8sCanaryDeploy => "金丝雀部署"
    case JobK8sCanaryRelease => "金丝雀发布"
    case JobK8sGrayRelease => "灰度发布"
    case JobK8sGrayRollback => "灰度回滚"
    case JobK8sPatch => "更新 k8s YAML"
    case JobIstioRelease => "istio 发布"
    case JobIstioRollback => "istio 回滚"
    case JobJira => "jira 问题状态变更"
    case JobNacos => "Nacos 配置变更"
    case JobApollo => "Apollo 配置变更"
    case JobMeegoTransition => "飞书工作项状态变更"
    case JobOther(raw) => raw
  }

  /** Every known job type has a label of its own; an unknown one keeps its name. */
  lemma JobTypeLabelsDistinct(t1: JobType, t2: JobType)
    requires !t1.JobOther? && !t2.JobOther? && t1 != t2
    ensures JobTypeLabel(t1) != JobTypeLabel(t2)
  {
  }

  // ---------------------------------------------------------------------
  // The code summary of a build job

  const ProviderGithub := "github"
  const ProviderGitee := "gitee"
  const ProviderGitlab := "gitlab"
  const ProviderGerrit := "gerrit"

  /** The link to a pull request on the repository's provider; empty for an unknown provider. */
  function PRLink(r: Repository, id: int): string
  {
    if r.source == ProviderGithub then r.address + "/" + r.repoOwner + "/" + r.repoName + "/pull/" + IntToString(id)
    else if r.source == ProviderGitee then r.address + "/" + r.repoOwner + "/" + r.repoName + "/pulls/" + IntToString(id)
    else if r.source == ProviderGitlab then r.address + "/" + r.repoOwner + "/" + r.repoName + "/merge_requests/" + IntToString(id)
    else if r.source == ProviderGerrit then r.address + "/" + IntToString(id)
    else ""
  }

  predicate KnownProvider(source: string)
  {
    source == ProviderGithub || source == ProviderGitee || source == ProviderGitlab || source == ProviderGerrit
  }

  /** The markdown entry for a pull request. */
  function PREntry(id: int, link: string): string
  {
    "[#" + IntToString(id) + "](" + link + ")"
  }

  /** The markdown entry for a pull request, when the provider gives it a link. */
  function LinkedEntry(r: Repository): int -> Option<string>
  {
    id => if PRLink(r, id) != "" then Some(PREntry(id, PRLink(r, id))) else None
  }

  /** The markdown entries for the pull requests, in the given order, skipping those without a link. */
  function PREntries(r: Repository, prs: seq<int>): seq<string>
  {
    FilterMap(prs, LinkedEntry(r))
  }

  /** A known provider always yields a link. */
  lemma PRLinkKnown(r: Repository, id: int)
    requires KnownProvider(r.source)
    ensures PRLink(r, id) != ""
  {
    var t := IntToString(id);
    if r.source == ProviderGerrit {
      assert |r.address + "/" + t| >= 1;
    } else {
      assert |r.address + "/" + r.repoOwner + "/" + r.repoName + "/"| >= 1;
    }
  }

  /** A known provider links every pull request, one entry each, in order. */
  lemma PREntriesKnownProvider(r: Repository, prs: seq<int>)
    requires KnownProvider(r.source)
    ensures |PREntries(r, prs)| == |prs|
    ensures forall k :: 0 <= k < |prs| ==> PREntries(r, prs)[k] == PREntry(prs[k], PRLink(r, prs[k]))
  {
    forall i | 0 <= i < |prs| ensures LinkedEntry(r)(prs[i]).Some? {
      PRLinkKnown(r, prs[i]);
    }
    FilterMapTotal(prs, LinkedEntry(r));
  }

  /** An unknown provider links no pull request. */
  lemma PREntriesUnknownProvider(r: Repository, prs: seq<int>)
    requires !KnownProvider(r.source)
    ensures PREntries(r, prs) == []
  {
    FilterMapNone(prs, LinkedEntry(r));
  }

  /** sort.Ints: insert into a sorted list. */
  function Insert(x: int, s: seq<int>): (r: seq<int>)
    ensures multiset(r) == multiset(s) + multiset{x}
  {
    if |s| == 0 || x <= s[0] then [x] + s
    else
      assert s == [s[0]] + s[1..];
      [s[0]] + Insert(x, s[1..])
  }

  function SortInts(s: seq<int>): (r: seq<int>)
    ensures multiset(r) == multiset(s)
  {
    if |s| == 0 then []
    else
      assert s == [s[0]] + s[1..];
      Insert(s[0], SortInts(s[1..]))
  }

  predicate Ascending(s: seq<int>)
  {
    forall i, j :: 0 <= i < j < |s| ==> s[i] <= s[j]
  }

  lemma {:induction false} InsertAscending(x: int, s: seq<int>)
    requires Ascending(s)
    ensures Ascending(Insert(x, s))
    decreases |s|
  {
    if |s| > 0 && x > s[0] {
      InsertAscending(x, s[1..]);
      var r := Insert(x, s);
      var t := Insert(x, s[1..]);
      assert r == [s[0]] + t;
      assert multiset(t) == multiset(s[1..]) + multiset{x};
      forall k | 0 <= k < |t| ensures s[0] <= t[k] {
        assert t[k] in multiset(t);
        if t[k] != x {
          assert t[k] in multiset(s[1..]);
          var m :| 0 <= m < |s[1..]| && s[1..][m] == t[k];
          assert s[m + 1] == t[k];
        }
      }
    }
  }

  /** The pull requests come out ascending, and are the same numbers. */
  lemma {:induction false} SortIntsSorts(s: seq<int>)
    ensures Ascending(SortInts(s)) && multiset(SortInts(s)) == multiset(s)
    decreases |s|
  {
    if |s| > 0 {
      SortIntsSorts(s[1..]);
      InsertAscending(s[0], SortInts(s[1..]));
    }
  }

  /** What the notification shows of the code: the branch or tag, the short commit, the pull requests and the commit link. */
  datatype CodeSummary = CodeSummary(branchTag: string, commitID: string, prEntries: seq<string>, commitURL: string)

  /** The repository at position idx is summarised when it is the first one or the primary one. */
  predicate Summarised(r: Repository, idx: nat)
  {
    idx == 0 || r.isPrimary
  }

  function BranchTag(r: Repository): string
  {
    if r.tag != "" then r.tag else r.branch
  }

  /** The commit kept so far is replaced by the first 8 characters of a longer commit ID, and kept otherwise. */
  function ShortCommit(r: Repository, kept: string): (c: string)
    ensures |r.commitID| > 8 ==> |c| == 8 && c == r.commitID[..8]
    ensures |r.commitID| <= 8 ==> c == kept
  {
    if |r.commitID| > 8 then r.commitID[..8] else kept
  }

  function CommitURL(r: Repository, commitID: string): string
  {
    r.address + "/" + r.repoOwner + "/" + r.repoName + "/commit/" + commitID
  }

  /** The summary after one more repository. */
  function SummaryStep(s: CodeSummary, r: Repository, idx: nat): CodeSummary
  {
    if Summarised(r, idx) then
      var c := ShortCommit(r, s.commitID);
      CodeSummary(BranchTag(r), c, PREntries(r, SortInts(r.prs)), CommitURL(r, c))
    else s
  }

  /** The summary of the repositories, taken in order. */
  function Summary(repos: seq<Repository>): CodeSummary
  {
    if |repos| == 0 then CodeSummary("", "", [], "")
    else SummaryStep(Summary(repos[..|repos| - 1]), repos[|repos| - 1], |repos| - 1)
  }

  /** The last repository that is summarised. */
  function LastSummarised(repos: seq<Repository>): (k: nat)
    requires |repos| > 0
    ensures k < |repos| && Summarised(repos[k], k)
    ensures forall i :: k < i < |repos| ==> !Summarised(repos[i], i)
  {
    var n := |repos| - 1;
    if Summarised(repos[n], n) then n else LastSummarised(repos[..n])
  }

  /**
   * The branch or tag, the pull requests and the commit link all come from
   * the last summarised repository (the primary one, or the first), its
   * pull requests sorted; the commit is empty or 8 characters long.
   */
  lemma {:induction false} SummaryFromLastSummarised(repos: seq<Repository>)
    requires |repos| > 0
    ensures var s := Summary(repos);
      var r := repos[LastSummarised(repos)];
      s.branchTag == BranchTag(r)
      && s.prEntries == PREntries(r, SortInts(r.prs))
      && s.commitURL == CommitURL(r, s.commitID)
      && (|r.commitID| > 8 ==> s.commitID == r.commitID[..8])
      && (|s.commitID| == 0 || |s.commitID| == 8)
    decreases |repos|
  {
    var n := |repos| - 1;
    if n > 0 {
      SummaryFromLastSummarised(repos[..n]);
      if !Summarised(repos[n], n) {
        assert LastSummarised(repos) == LastSummarised(repos[..n]);
        assert repos[..n][LastSummarised(repos[..n])] == repos[LastSummarised(repos)];
      }
    }
  }

  /** Summarise one repository: a summarised one has its pull requests sorted in place. */
  method SummarizeRepo(s: CodeSummary, r: Repository, idx: nat) returns (s': CodeSummary, r': Repository)
    ensures s' == SummaryStep(s, r, idx)
    ensures r' == if Summarised(r, idx) then r.(prs := SortInts(r.prs)) else r
  {
    s', r' := s, r;
    if idx == 0 || r.isPrimary {
      var branchTag := r.branch;
      if r.tag != "" {
        branchTag := r.tag;
      }
      var commitID := s.commitID;
      if |r.commitID| > 8 {
        commitID := r.commitID[..8];
      }
      var prs := SortInts(r.prs);
      r' := r.(prs := prs);
      var entries := CollectPREntries(r, prs);
      s' := CodeSummary(branchTag, commitID, entries, CommitURL(r, commitID));
    }
  }

  /** Summarise the build job's repositories, sorting each summarised one's pull requests in place. */
  method SummarizeRepos(repos: seq<Repository>) returns (s: CodeSummary, sorted: seq<Repository>)
    ensures s == Summary(repos)
    ensures |sorted| == |repos|
    ensures forall i :: 0 <= i < |repos| ==>
      sorted[i] == if Summarised(repos[i], i) then repos[i].(prs := SortInts(repos[i].prs)) else repos[i]
  {
    s := CodeSummary("", "", [], "");
    sorted := repos;
    var i := 0;
    while i < |repos|
      invariant 0 <= i <= |repos| && |sorted| == |repos|
      invariant s == Summary(repos[..i])
      invariant forall k :: 0 <= k < i ==>
        sorted[k] == if Summarised(repos[k], k) then repos[k].(prs := SortInts(repos[k].prs)) else repos[k]
      invariant forall k :: i <= k < |repos| ==> sorted[k] == repos[k]
    {
      assert repos[..i + 1][..i] == repos[..i];
      var r;
      s, r := SummarizeRepo(s, repos[i], i);
      sorted := sorted[i := r];
      i := i + 1;
    }
    assert repos[..i] == repos;
  }

  /** Build the pull-request entries, in order, skipping those without a link. */
  method CollectPREntries(r: Repository, prs: seq<int>) returns (entries: seq<string>)
    ensures entries == PREntries(r, prs)
  {
    entries := [];
    var i := 0;
    while i < |prs|
      invariant 0 <= i <= |prs|
      invariant entries == PREntries(r, prs[..i])
    {
      FilterMapSnoc(prs, i, LinkedEntry(r));
      var link := PRLink(r, prs[i]);
      if link != "" {
        entries := entries + [PREntry(prs[i], link)];
      }
      i := i + 1;
    }
    assert prs[..i] == prs;
  }

  /** The pull-request text: the entries joined by spaces, with a space after, or nothing without entries. */
  function PRInfo(entries: seq<string>): (r: string)
    ensures entries == [] <==> r == ""
  {
    if |entries| == 0 then "" else JoinSpace(entries) + " "
  }

  function JoinSpace(entries: seq<string>): string
    requires |entries| > 0
  {
    if |entries| == 1 then entries[0] else entries[0] + " " + JoinSpace(entries[1..])
  }
}
