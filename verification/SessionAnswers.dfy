/** What each request to the sessions is answered, every answer exactly when, and the rows it leaves. */
module SessionAnswers {
  import opened Basics
  import opened Store
  import opened Tokens
  import opened Rotation
  import opened Sessions

  /** A sign-in writes one row, under the id of the token it hands out, and enabled as asked. */
  lemma OpenExactly(cfg: Settings, s: State, user: UserId, enabled: bool)
    ensures var (s', answer) := Serve(cfg, s, Open(user, enabled));
      && answer.Signed? && answer.refresh.user == user && answer.refresh.jti == s.nextId
      && answer.refresh.sessionIat == Some(Epoch(s.now))
      && s'.rows == s.rows[answer.refresh.jti := Row(user, answer.refresh.session, enabled, s.now)]
      && answer.refresh.session >= s.nextId && s'.nextId > answer.refresh.session
  {
  }

  /** The token can be presented: it was handed out and has not expired by itself. */
  predicate Good(s: State, j: Jti) {
    j in s.minted && s.now < FromEpoch(s.minted[j].token.exp)
  }

  /**
   A refresh succeeds exactly for a good, listed and enabled token of a session that is not over
   and an active account, and then the row of its successor, enabled, takes the place of its own.
   */
  lemma RefreshExactly(cfg: Settings, s: State, j: Jti)
    requires Inv(s)
    ensures var (s', answer) := Serve(cfg, s, Refresh(j));
      && (answer.Signed? <==>
            && Good(s, j) && j in s.rows && s.rows[j].enabled && s.rows[j].user in s.active
            && !(cfg.sessionLifetime.Some? && s.minted[j].token.sessionIat.Some?
                 && FromEpoch(s.minted[j].token.sessionIat.value) + cfg.sessionLifetime.value <= s.now))
      && (answer.Signed? ==>
            && answer.refresh.user == s.minted[j].token.user && answer.refresh.session == s.minted[j].token.session
            && answer.refresh.jti == s.nextId && s'.nextId > s.nextId
            && s'.rows == (s.rows - {j})[s.nextId := Row(s.rows[j].user, s.rows[j].session, true, s.now)])
  {
    if j in s.minted && j in s.rows {
      assert TokenKept(s, s.minted[j]) && RowKept(s, j, s.rows[j]);
    }
  }

  /** What a refusal leaves, by the first check to fail; a token that is not good changes nothing. */
  lemma RefusedExactly(cfg: Settings, s: State, j: Jti)
    requires Inv(s) && Serve(cfg, s, Refresh(j)).1.Refused?
    ensures var (s', answer) := Serve(cfg, s, Refresh(j));
      && (!Good(s, j) ==> s' == s && answer == Answer.Refused(InvalidToken))
      && (Good(s, j) ==>
            var token := s.minted[j].token;
            var disabled := j in s.rows && !s.rows[j].enabled;
            var overdue := cfg.sessionLifetime.Some? && token.sessionIat.Some?
              && FromEpoch(token.sessionIat.value) + cfg.sessionLifetime.value <= s.now;
            && (disabled ==>
                  && s' == s
                  && answer == Answer.Refused(if token.user in s.verified then InvalidToken else NotVerifiedEmail))
            && (j !in s.rows ==>
                  OtherSessionsLeft(s.rows, s'.rows, token.session) && answer == Answer.Refused(InvalidToken))
            && (j in s.rows && !disabled && overdue ==>
                  OtherSessionsLeft(s.rows, s'.rows, token.session) && answer == Answer.Refused(SessionOver))
            && (j in s.rows && !disabled && !overdue ==>
                  OthersLeft(s.rows, s'.rows, token.user) && answer == Answer.Refused(InvalidToken)))
  {
    if j in s.minted && j in s.rows {
      assert TokenKept(s, s.minted[j]) && RowKept(s, j, s.rows[j]);
    }
  }

  /** A logout succeeds exactly for the token's own user while its session is open, and ends that session. */
  lemma LogoutExactly(cfg: Settings, s: State, j: Jti, caller: UserId)
    requires Inv(s)
    ensures var (s', answer) := Serve(cfg, s, Logout(j, caller));
      && (answer == Done <==>
            Good(s, j) && caller == s.minted[j].token.user && SessionListed(s.rows, s.minted[j].token.session))
      && (answer == Done ==> OtherSessionsLeft(s.rows, s'.rows, s.minted[j].token.session))
      && (answer != Done ==> s' == s && answer == Answer.Refused(InvalidToken))
  {
    if j in s.minted {
      var token := s.minted[j].token;
      if j in s.rows {
        assert RowKept(s, j, s.rows[j]);
      }
      forall i | i in s.rows && s.rows[i].session == token.session
        ensures i in Selected(s.rows, OfTokenOrSession(token.jti, token.session))
      {
      }
    }
  }

  /** An access token is let in exactly while it is good, and its session listed where that is checked. */
  lemma AuthenticateExactly(cfg: Settings, s: State, k: nat)
    ensures var (s', answer) := Serve(cfg, s, Authenticate(k));
      var good := k < |s.accesses| && s.now < FromEpoch(s.accesses[k].access.exp);
      && s' == s
      && (answer.Welcome? <==> good && (cfg.sessionCheck ==> SessionListed(s.rows, s.accesses[k].access.session)))
      && (answer.Welcome? ==> answer.user == s.accesses[k].access.user)
      && (!answer.Welcome? ==> answer == Answer.Refused(InvalidToken))
  {
  }

  /** A logout everywhere, and a change of credentials where the installation says so, end the sessions of one user. */
  lemma EndedExactly(cfg: Settings, s: State, user: UserId)
    ensures OthersLeft(s.rows, Serve(cfg, s, LogoutAll(user)).0.rows, user)
    ensures var changed := Serve(cfg, s, ChangeCredentials(user)).0;
      if cfg.logoutOnPasswordChange then OthersLeft(s.rows, changed.rows, user) else changed == s
  {
  }
}
